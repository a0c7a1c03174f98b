/** The graphics driver as the resource layer sees it: every call the layer
    issues is appended to a log, and every call that creates a driver object
    hands out a name that was never handed out before.  Nothing here models
    pixels, rasterisation or read-back. */
module Gl {

  /** Rust's fixed-width integers, as the slices of `int` they denote. */
  type u8 = x: int | 0 <= x < 0x100
  type u32 = x: int | 0 <= x < 0x1_0000_0000
  type i32 = x: int | -0x8000_0000 <= x < 0x8000_0000

  /** Floating-point payloads are carried as opaque bit patterns. */
  datatype F32 = F32(bits: bv32)
  datatype F64 = F64(bits: bv64)

  /** The error-or-value results of the layer; errors are strings, as in the source. */
  datatype Result<T> = Ok(value: T) | Err(error: string)

  datatype Option<T> = None | Some(value: T)

  /** Rust's `x as u32` on a value of a wider or signed type: keep the low 32 bits. */
  function AsU32(x: int): (r: u32)
    ensures 0 <= x < 0x1_0000_0000 ==> r == x
    ensures x < 0 && -0x1_0000_0000 <= x ==> r == x + 0x1_0000_0000
  {
    x % 0x1_0000_0000
  }

  /** Rust's `x as i32` on an unsigned 32-bit value: reinterpret as two's complement.
      The same-width cast loses nothing: casting back to `u32` gives `x`. */
  function AsI32(x: u32): (r: i32)
    ensures AsU32(r) == x
  {
    if x < 0x8000_0000 then x else x - 0x1_0000_0000
  }

  /** `AsI32(x)` is the only `i32` whose bits are `x`. */
  lemma AsI32Unique(x: u32, r: i32)
    ensures AsU32(r) == x <==> r == AsI32(x)
  {
  }

  // The OpenGL enumerants the layer passes (values of the OpenGL 3.3 core profile).
  const GL_TRUE: int := 1
  const GL_UNSIGNED_BYTE: int := 0x1401
  const GL_INT: int := 0x1404
  const GL_FLOAT: int := 0x1406
  const GL_RGB: int := 0x1907
  const GL_RGBA: int := 0x1908
  const GL_TEXTURE_2D: int := 0x0DE1
  const GL_NEAREST: int := 0x2600
  const GL_LINEAR: int := 0x2601
  const GL_TEXTURE_MAG_FILTER: int := 0x2800
  const GL_TEXTURE_MIN_FILTER: int := 0x2801
  const GL_TEXTURE_WRAP_S: int := 0x2802
  const GL_TEXTURE_WRAP_T: int := 0x2803
  const GL_REPEAT: int := 0x2901
  const GL_CLAMP_TO_BORDER: int := 0x812D
  const GL_CLAMP_TO_EDGE: int := 0x812F
  const GL_MIRRORED_REPEAT: int := 0x8370
  const GL_TEXTURE0: int := 0x84C0
  const GL_ARRAY_BUFFER: int := 0x8892
  const GL_ELEMENT_ARRAY_BUFFER: int := 0x8893
  const GL_STATIC_DRAW: int := 0x88E4
  const GL_FRAGMENT_SHADER: int := 0x8B30
  const GL_VERTEX_SHADER: int := 0x8B31
  const GL_COMPILE_STATUS: int := 0x8B81
  const GL_LINK_STATUS: int := 0x8B82

  /** The data handed to a buffer upload: 32-bit floats or 32-bit indices. */
  datatype Payload = Floats(floats: seq<F32>) | Indices(indices: seq<u32>)

  /** One driver call with the arguments the layer passes.  Object names are
      `nat`; a call that creates an object records the name it returned. */
  datatype Call =
    | GenVertexArrays(array: nat)
    | BindVertexArray(array: nat)
    | DeleteVertexArrays(array: nat)
    | GenBuffers(buffer: nat)
    | BindBuffer(target: int, buffer: nat)
    | BufferData(target: int, bytes: nat, data: Payload, usage: int)
    | DeleteBuffers(buffer: nat)
    | VertexAttribPointer(index: nat, components: int, ty: int, normalized: bool, stride: int, offset: nat)
    | EnableVertexAttribArray(index: nat)
    | CreateShader(kind: int, shader: nat)
    | ShaderSource(shader: nat, source: seq<u8>)
    | CompileShader(shader: nat)
    | GetShaderiv(shader: nat, pname: int)
    | CreateProgram(program: nat)
    | AttachShader(program: nat, shader: nat)
    | LinkProgram(program: nat)
    | GetProgramiv(program: nat, pname: int)
    | DeleteShader(shader: nat)
    | UseProgram(program: nat)
    | DeleteProgram(program: nat)
    | GetUniformLocation(program: nat, name: string)
    | Uniform1f(location: int, v0: F32)
    | Uniform1i(location: int, i0: int)
    | Uniform3f(location: int, v0: F32, v1: F32, v2: F32)
    | Uniform4f(location: int, v0: F32, v1: F32, v2: F32, v3: F32)
    | UniformMatrix2fv(location: int, count: int, transpose: bool, matrix: seq<F32>)
    | UniformMatrix3fv(location: int, count: int, transpose: bool, matrix: seq<F32>)
    | UniformMatrix4fv(location: int, count: int, transpose: bool, matrix: seq<F32>)
    | UniformMatrix3dv(location: int, count: int, transpose: bool, dmatrix: seq<F64>)
    | GenTextures(texture: nat)
    | ActiveTexture(unit: int)
    | BindTexture(target: int, texture: nat)
    | TexImage2D(target: int, level: int, internalFormat: int, width: int, height: int,
                 border: int, format: int, ty: int, pixels: seq<u8>)
    | GenerateMipmap(target: int)
    | TexParameteri(target: int, pname: int, param: int)
    | DeleteTextures(texture: nat)

  /** The abstract driver: the calls issued so far, oldest first, and how many
      object names it has handed out (names are 1, 2, 3, ...; 0 means "none"). */
  class Driver {
    var log: seq<Call>
    var issued: nat

    constructor ()
      ensures log == [] && issued == 0
    {
      log := [];
      issued := 0;
    }

    /** Issues one call. */
    method Issue(c: Call)
      modifies this
      ensures log == old(log) + [c]
      ensures issued == old(issued)
    {
      log := log + [c];
    }

    /** The name the next creating call returns; a creating call is `Fresh`
        followed by `Issue` of the call that records that name. */
    method Fresh() returns (name: nat)
      modifies this
      ensures name == old(issued) + 1 && issued == name
      ensures log == old(log)
    {
      issued := issued + 1;
      name := issued;
    }
  }
}
