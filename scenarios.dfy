/** Client runs of the resource layer on a fresh driver, as the viewer's setup uses it:
    what the cached flags save and what they do not. */
module Scenarios {
  import opened Gl
  import opened Buffers
  import opened Shaders
  import opened Uniforms

  /** Binding a vertex array twice issues one bind: the flag makes the second a no-op. */
  method VertexArrayBindTwice() returns (log: seq<Call>)
    ensures log == [GenVertexArrays(1), BindVertexArray(1)]
  {
    var gl := new Driver();
    var vao := new VertexArray(gl);
    vao.Bind(gl);
    vao.Bind(gl);
    log := gl.log;
  }

  /** Binding a vertex buffer twice issues two binds, and unbinding it afterwards issues
      nothing: its flag never becomes true. */
  method VertexBufferBindTwice() returns (log: seq<Call>)
    ensures log == [GenVertexArrays(1), BindVertexArray(1), GenBuffers(2),
                    BindBuffer(GL_ARRAY_BUFFER, 2), BindBuffer(GL_ARRAY_BUFFER, 2)]
  {
    var gl := new Driver();
    var vao := new VertexArray(gl);
    var vbo := new VertexBuffer(vao, gl);
    vbo.Bind(gl);
    vbo.Bind(gl);
    vbo.Unbind(gl);
    log := gl.log;
  }

  /** The viewer's quad: a vertex array, a vertex buffer and the two-slot layout
      (position, texture coordinate).  The attribute pointers use stride 16 and
      offsets 0 and 8 on the buffer the driver named 2.  The viewer also creates and
      fills an element buffer between the upload and the layout; that issues no
      attribute pointer and leaves the vertex buffer's flag false, so it is left out
      here without changing the pointers. */
  method QuadSetup(vertices: seq<F32>) returns (pointers: seq<Call>, vbo: nat)
    requires |vertices| > 0
    ensures vbo == 2
    ensures pointers == [VertexAttribPointer(0, 2, GL_FLOAT, false, 16, 0),
                         VertexAttribPointer(1, 2, GL_FLOAT, false, 16, 8)]
  {
    var gl := new Driver();
    var vao := new VertexArray(gl);
    var buffer := new VertexBuffer(vao, gl);
    buffer.SetData(vertices, gl);
    var layout := new VertexAttribDescriptor();
    layout := layout.Layout(0, Float(2));
    layout := layout.Layout(1, Float(2));
    var before := gl.log;
    layout.Link(vao, buffer, gl);
    assert layout.items == QuadAttribs();
    QuadLayout(vao.id, true, buffer.id, false);
    pointers := Pointers(gl.log[|before|..]);
    assert gl.log[|before|..] == LinkCalls(layout.items, vao.id, true, buffer.id, false);
    vbo := buffer.id;
  }

  /** A uniform set right after the shader is built reaches that shader's program: the
      program in use when the value is uploaded is the one built. */
  method IterUniform(vertex: Stage, fragment: Stage, location: i32) returns (inUse: nat, program: nat)
    requires Compiles(vertex) && Compiles(fragment)
    ensures program == 3 && inUse == program
  {
    var gl := new Driver();
    var built := Shader.New(vertex, fragment, GL_TRUE, gl);
    var shader := built.value;
    var iter := Uniform.New("max_iter", shader, location, gl);
    ghost var before := gl.log;
    iter.Seti(2, shader, gl);
    UploadReachesProgram(before, false, shader.id, Uniform1i(location, 2));
    inUse := InUse(gl.log);
    program := shader.id;
  }
}
