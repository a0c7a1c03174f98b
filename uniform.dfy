/** Uniform variables of a shader program: a location looked up once, then uploads
    to that location, each made with the owning program in use. */
module Uniforms {
  import opened Gl
  import opened Shaders

  /** Matrices as the column-major runs of floats the uploads read. */
  type Mat2 = m: seq<F32> | |m| == 4 witness [F32(0), F32(0), F32(0), F32(0)]
  type Mat3 = m: seq<F32> | |m| == 9 witness seq(9, _ => F32(0))
  type Mat4 = m: seq<F32> | |m| == 16 witness seq(16, _ => F32(0))
  type DMat3 = m: seq<F64> | |m| == 9 witness seq(9, _ => F64(0))

  datatype Vec3 = Vec3(x: F32, y: F32, z: F32)
  datatype Vec4 = Vec4(x: F32, y: F32, z: F32, w: F32)

  /** A uniform: the location the driver returned for its name, kept as returned
      (including the driver's "not found" answer). */
  datatype Uniform = Uniform(location: i32)
  {
    /** Looks up `name` in `shader`'s program.  The program is put in use for the
        lookup and then taken out of use, whatever its flag said before.  `answer` is
        the location the driver returns. */
    static method New(name: string, shader: Shader, answer: i32, gl: Driver) returns (u: Uniform)
      requires '\0' !in name
      modifies shader, gl
      ensures u.location == answer
      ensures !shader.bound
      ensures gl.log == old(gl.log) + UseCall(old(shader.bound), shader.id)
                        + [GetUniformLocation(shader.id, name), UseProgram(0)]
      ensures gl.issued == old(gl.issued)
    {
      shader.Bind(gl);
      gl.Issue(GetUniformLocation(shader.Id(), name));
      shader.Unbind(gl);
      u := Uniform(answer);
    }

    /** Puts `shader` in use, then issues `upload`: the common shape of every setter. */
    method Upload(upload: Call, shader: Shader, gl: Driver)
      modifies shader, gl
      ensures shader.bound
      ensures gl.log == old(gl.log) + UseCall(old(shader.bound), shader.id) + [upload]
      ensures gl.issued == old(gl.issued)
    {
      shader.Bind(gl);
      gl.Issue(upload);
    }

    method Setf(value: F32, shader: Shader, gl: Driver)
      modifies shader, gl
      ensures shader.bound
      ensures gl.log == old(gl.log) + UseCall(old(shader.bound), shader.id) + [Uniform1f(location, value)]
      ensures gl.issued == old(gl.issued)
    {
      Upload(Uniform1f(location, value), shader, gl);
    }

    method Seti(value: i32, shader: Shader, gl: Driver)
      modifies shader, gl
      ensures shader.bound
      ensures gl.log == old(gl.log) + UseCall(old(shader.bound), shader.id) + [Uniform1i(location, value)]
      ensures gl.issued == old(gl.issued)
    {
      Upload(Uniform1i(location, value), shader, gl);
    }

    method SetM4f(value: Mat4, shader: Shader, gl: Driver)
      modifies shader, gl
      ensures shader.bound
      ensures gl.log == old(gl.log) + UseCall(old(shader.bound), shader.id)
                        + [UniformMatrix4fv(location, 1, false, value)]
      ensures gl.issued == old(gl.issued)
    {
      Upload(UniformMatrix4fv(location, 1, false, value), shader, gl);
    }

    method Set3f(x: F32, y: F32, z: F32, shader: Shader, gl: Driver)
      modifies shader, gl
      ensures shader.bound
      ensures gl.log == old(gl.log) + UseCall(old(shader.bound), shader.id) + [Uniform3f(location, x, y, z)]
      ensures gl.issued == old(gl.issued)
    {
      Upload(Uniform3f(location, x, y, z), shader, gl);
    }

    method Set4f(x0: F32, x1: F32, x2: F32, x3: F32, shader: Shader, gl: Driver)
      modifies shader, gl
      ensures shader.bound
      ensures gl.log == old(gl.log) + UseCall(old(shader.bound), shader.id) + [Uniform4f(location, x0, x1, x2, x3)]
      ensures gl.issued == old(gl.issued)
    {
      Upload(Uniform4f(location, x0, x1, x2, x3), shader, gl);
    }

    method SetV4f(value: Vec4, shader: Shader, gl: Driver)
      modifies shader, gl
      ensures shader.bound
      ensures gl.log == old(gl.log) + UseCall(old(shader.bound), shader.id)
                        + [Uniform4f(location, value.x, value.y, value.z, value.w)]
      ensures gl.issued == old(gl.issued)
    {
      Upload(Uniform4f(location, value.x, value.y, value.z, value.w), shader, gl);
    }

    method SetV3f(value: Vec3, shader: Shader, gl: Driver)
      modifies shader, gl
      ensures shader.bound
      ensures gl.log == old(gl.log) + UseCall(old(shader.bound), shader.id)
                        + [Uniform3f(location, value.x, value.y, value.z)]
      ensures gl.issued == old(gl.issued)
    {
      Upload(Uniform3f(location, value.x, value.y, value.z), shader, gl);
    }

    method SetM2f(value: Mat2, shader: Shader, gl: Driver)
      modifies shader, gl
      ensures shader.bound
      ensures gl.log == old(gl.log) + UseCall(old(shader.bound), shader.id)
                        + [UniformMatrix2fv(location, 1, false, value)]
      ensures gl.issued == old(gl.issued)
    {
      Upload(UniformMatrix2fv(location, 1, false, value), shader, gl);
    }

    method SetM3f(value: Mat3, shader: Shader, gl: Driver)
      modifies shader, gl
      ensures shader.bound
      ensures gl.log == old(gl.log) + UseCall(old(shader.bound), shader.id)
                        + [UniformMatrix3fv(location, 1, false, value)]
      ensures gl.issued == old(gl.issued)
    {
      Upload(UniformMatrix3fv(location, 1, false, value), shader, gl);
    }

    method SetM3d(value: DMat3, shader: Shader, gl: Driver)
      modifies shader, gl
      ensures shader.bound
      ensures gl.log == old(gl.log) + UseCall(old(shader.bound), shader.id)
                        + [UniformMatrix3dv(location, 1, false, value)]
      ensures gl.issued == old(gl.issued)
    {
      Upload(UniformMatrix3dv(location, 1, false, value), shader, gl);
    }
  }

  /** After a setter on a shader whose flag was `wasBound`, the program in use is the
      shader's: a setter's upload always reaches its own program, provided the flag was
      truthful beforehand. */
  lemma {:induction false} UploadReachesProgram(before: seq<Call>, wasBound: bool, program: nat, upload: Call)
    requires !upload.UseProgram?
    requires wasBound ==> InUse(before) == program
    ensures InUse(before + UseCall(wasBound, program) + [upload]) == program
  {
    InUseAppend(before + UseCall(wasBound, program), [upload]);
    if !wasBound {
      var cs := before + [UseProgram(program)];
      assert cs[|cs| - 1] == UseProgram(program);
    } else {
      assert before + UseCall(wasBound, program) == before;
    }
  }
}
