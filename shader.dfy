/** Shader programs: compiling a vertex and a fragment stage, linking them into a
    program, and the program's cached "in use" flag.  How the driver answers (the
    bytes a stage's file holds, the compile and link statuses) is an input. */
module Shaders {
  import opened Gl

  /** What reading a stage's source file gives: the I/O error's text, or the file's bytes. */
  datatype Source = Unreadable(reason: string) | Text(bytes: seq<u8>)

  /** One shader stage as the driver will see it: the file name, what reading it gives,
      and the compile status the driver reports for it. */
  datatype Stage = Stage(path: string, source: Source, status: int)

  /** What a driver-call sequence leaves behind: its result, the calls issued in
      order, and how many fresh object names it took from the driver. */
  datatype Outcome = Outcome(result: Result<nat>, calls: seq<Call>, names: nat)

  /** The position of the first NUL byte, if any: where `CString::new` stops. */
  function FirstNul(b: seq<u8>): (r: Option<nat>)
    ensures r.None? <==> 0 !in b
    ensures r.Some? ==> r.value < |b| && b[r.value] == 0
    ensures r.Some? ==> forall j :: 0 <= j < r.value ==> b[j] != 0
  {
    if b == [] then None
    else if b[0] == 0 then Some(0)
    else match FirstNul(b[1..])
      case None => None
      case Some(k) => Some(k + 1)
  }

  /** The decimal digit for `d`. */
  function Digit(d: nat): char
    requires d < 10
  {
    "0123456789"[d]
  }

  /** The decimal rendering of `n`, as `format!("{}", n)` writes it. */
  function Decimal(n: nat): (s: string)
    ensures |s| > 0 && (forall i :: 0 <= i < |s| ==> '0' <= s[i] <= '9')
    ensures n < 10 <==> |s| == 1
  {
    if n < 10 then [Digit(n)] else Decimal(n / 10) + [Digit(n % 10)]
  }

  /** The number written by a string of decimal digits. */
  function DigitsValue(s: string): nat
    requires forall i :: 0 <= i < |s| ==> '0' <= s[i] <= '9'
  {
    if s == [] then 0 else DigitsValue(s[..|s| - 1]) * 10 + (s[|s| - 1] as int - '0' as int)
  }

  /** Reading the rendering back gives the number: the message names the right position. */
  lemma {:induction false} DecimalRoundTrip(n: nat)
    ensures DigitsValue(Decimal(n)) == n
  {
    var s := Decimal(n);
    if n >= 10 {
      DecimalRoundTrip(n / 10);
      assert s[..|s| - 1] == Decimal(n / 10);
    }
  }

  /** The error `CString::new` reports for a NUL byte at `pos`. */
  function NulMessage(pos: nat): string
  {
    "nul byte found in provided data at position: " + Decimal(pos)
  }

  /** A stage that compiles: readable, without NUL bytes, and reported as compiled. */
  predicate Compiles(st: Stage)
  {
    st.source.Text? && 0 !in st.source.bytes && st.status == GL_TRUE
  }

  /** Compiling one stage of kind `kind` whose shader object the driver names `name`:
      the shader object is created before the file's contents are looked at. */
  function Compile(st: Stage, kind: int, name: nat): (o: Outcome)
    ensures o.names == 1
    ensures |o.calls| > 0 && o.calls[0] == CreateShader(kind, name)
    ensures o.result.Ok? <==> Compiles(st)
    ensures o.result.Ok? ==> o.result.value == name
    ensures |o.calls| > 1 <==> st.source.Text? && 0 !in st.source.bytes
    ensures |o.calls| > 1 ==>
      o.calls[1..] == [ShaderSource(name, st.source.bytes), CompileShader(name), GetShaderiv(name, GL_COMPILE_STATUS)]
    ensures st.source.Unreadable? ==> o.result == Err(st.source.reason)
    ensures st.source.Text? && 0 in st.source.bytes ==>
      o.result == Err(NulMessage(FirstNul(st.source.bytes).value))
    ensures |o.calls| > 1 && st.status != GL_TRUE ==> o.result == Err("Shader compilation failed: " + st.path)
  {
    var create := [CreateShader(kind, name)];
    match st.source
    case Unreadable(reason) => Outcome(Err(reason), create, 1)
    case Text(bytes) =>
      match FirstNul(bytes)
      case Some(pos) => Outcome(Err(NulMessage(pos)), create, 1)
      case None =>
        var calls := create + [ShaderSource(name, bytes), CompileShader(name), GetShaderiv(name, GL_COMPILE_STATUS)];
        if st.status != GL_TRUE then Outcome(Err("Shader compilation failed: " + st.path), calls, 1)
        else Outcome(Ok(name), calls, 1)
  }

  /** Compiling a stage neither deletes a shader object nor creates a program. */
  lemma CompileCreatesNoProgram(st: Stage, kind: int, name: nat)
    ensures var o := Compile(st, kind, name);
      forall i :: 0 <= i < |o.calls| ==> !o.calls[i].DeleteShader? && !o.calls[i].CreateProgram?
  {
  }

  /** Linking shader objects `v` and `f` (read from files `vPath` and `fPath`) into a
      new program the driver names `p`: create, attach both, link, query the status;
      only a successful link deletes the two shader objects. */
  function Link(v: nat, f: nat, vPath: string, fPath: string, linkStatus: int, p: nat): (o: Outcome)
    ensures o.names == 1
    ensures o.result.Ok? <==> linkStatus == GL_TRUE
    ensures o.result.Ok? ==> o.result.value == p
    ensures |o.calls| >= 5 && o.calls[..5] == LinkSteps(p, v, f)
    ensures o.calls[5..] == if o.result.Ok? then [DeleteShader(v), DeleteShader(f)] else []
    ensures o.result.Err? ==> o.result.error == "Shader linking failed: " + vPath + " " + fPath
  {
    var steps := LinkSteps(p, v, f);
    if linkStatus != GL_TRUE then Outcome(Err("Shader linking failed: " + vPath + " " + fPath), steps, 1)
    else Outcome(Ok(p), steps + [DeleteShader(v), DeleteShader(f)], 1)
  }

  /** The calls of creating program `p` from shader objects `v` and `f`, up to the link-status query. */
  function LinkSteps(p: nat, v: nat, f: nat): seq<Call>
  {
    [CreateProgram(p), AttachShader(p, v), AttachShader(p, f), LinkProgram(p), GetProgramiv(p, GL_LINK_STATUS)]
  }

  /** Building a program from a vertex stage `v` and a fragment stage `f` when the
      driver has handed out `next` names so far: the vertex shader is named `next + 1`,
      the fragment shader `next + 2` and the program `next + 3`.  The first failure
      returns at once. */
  function Pipeline(v: Stage, f: Stage, linkStatus: int, next: nat): (o: Outcome)
    ensures o.result.Ok? <==> Compiles(v) && Compiles(f) && linkStatus == GL_TRUE
    ensures o.result.Ok? ==> o.result.value == next + 3
    ensures 1 <= o.names <= 3
    ensures |o.calls| > 0 && o.calls[0] == CreateShader(GL_VERTEX_SHADER, next + 1)
  {
    var vo := Compile(v, GL_VERTEX_SHADER, next + 1);
    if vo.result.Err? then vo
    else
      var fo := Compile(f, GL_FRAGMENT_SHADER, next + 2);
      if fo.result.Err? then Outcome(fo.result, vo.calls + fo.calls, 2)
      else
        var lo := Link(next + 1, next + 2, v.path, f.path, linkStatus, next + 3);
        Outcome(lo.result, vo.calls + fo.calls + lo.calls, 3)
  }

  /** A vertex stage that fails stops the pipeline: its error is the pipeline's, and no
      fragment shader and no program is ever created. */
  lemma VertexFailureStops(v: Stage, f: Stage, linkStatus: int, next: nat)
    requires !Compiles(v)
    ensures var o := Pipeline(v, f, linkStatus, next);
      o.result == Compile(v, GL_VERTEX_SHADER, next + 1).result && o.names == 1 &&
      (forall i :: 0 <= i < |o.calls| ==>
         !o.calls[i].CreateProgram? && o.calls[i] != CreateShader(GL_FRAGMENT_SHADER, next + 2))
  {
    var o := Pipeline(v, f, linkStatus, next);
    var vo := Compile(v, GL_VERTEX_SHADER, next + 1);
    assert o.calls == vo.calls;
    forall i | 0 <= i < |o.calls| ensures o.calls[i] != CreateShader(GL_FRAGMENT_SHADER, next + 2) {
      if i == 0 {
        assert o.calls[0] == CreateShader(GL_VERTEX_SHADER, next + 1);
      } else {
        assert o.calls[i] in vo.calls[1..];
        assert vo.calls[1..] == [ShaderSource(next + 1, v.source.bytes), CompileShader(next + 1),
                                 GetShaderiv(next + 1, GL_COMPILE_STATUS)];
      }
    }
  }

  /** A vertex stage that does not compile reports the vertex file by name. */
  lemma VertexCompileError(v: Stage, f: Stage, linkStatus: int, next: nat)
    requires v.source.Text? && 0 !in v.source.bytes && v.status != GL_TRUE
    ensures Pipeline(v, f, linkStatus, next).result == Err("Shader compilation failed: " + v.path)
  {
  }

  /** A stage whose file is unreadable has had its shader object created already;
      nothing else is issued for it and nothing ever deletes it. */
  lemma UnreadableLeaks(v: Stage, f: Stage, linkStatus: int, next: nat)
    ensures v.source.Unreadable? ==>
      Pipeline(v, f, linkStatus, next) == Outcome(Err(v.source.reason), [CreateShader(GL_VERTEX_SHADER, next + 1)], 1)
    ensures Compiles(v) && f.source.Unreadable? ==>
      var o := Pipeline(v, f, linkStatus, next);
      o.result == Err(f.source.reason) && o.names == 2 &&
      o.calls[|o.calls| - 1] == CreateShader(GL_FRAGMENT_SHADER, next + 2) &&
      (forall i :: 0 <= i < |o.calls| ==> !o.calls[i].DeleteShader?)
  {
    if Compiles(v) && f.source.Unreadable? {
      var o := Pipeline(v, f, linkStatus, next);
      var vo := Compile(v, GL_VERTEX_SHADER, next + 1);
      assert o.calls == vo.calls + [CreateShader(GL_FRAGMENT_SHADER, next + 2)];
    }
  }

  /** `DeleteShader` is issued exactly when the pipeline succeeds, and then only as its
      two last calls, after the program was linked: a link failure leaks both shader objects. */
  lemma DeletesOnlyOnSuccess(v: Stage, f: Stage, linkStatus: int, next: nat)
    ensures var o := Pipeline(v, f, linkStatus, next);
      forall i :: 0 <= i < |o.calls| && o.calls[i].DeleteShader? ==> o.result.Ok? && |o.calls| - 2 <= i
    ensures var o := Pipeline(v, f, linkStatus, next);
      o.result.Ok? ==>
        |o.calls| >= 3 && o.calls[|o.calls| - 3] == GetProgramiv(next + 3, GL_LINK_STATUS) &&
        o.calls[|o.calls| - 2..] == [DeleteShader(next + 1), DeleteShader(next + 2)]
  {
    var o := Pipeline(v, f, linkStatus, next);
    var vo := Compile(v, GL_VERTEX_SHADER, next + 1);
    var fo := Compile(f, GL_FRAGMENT_SHADER, next + 2);
    var steps := LinkSteps(next + 3, next + 1, next + 2);
    if vo.result.Ok? && fo.result.Ok? {
      var linked := vo.calls + fo.calls + steps;
      assert linkStatus != GL_TRUE ==> o.calls == linked;
      forall i | 0 <= i < |linked| ensures !linked[i].DeleteShader? {
        if i < |vo.calls| {
          assert linked[i] == vo.calls[i];
        } else if i < |vo.calls| + |fo.calls| {
          assert linked[i] == fo.calls[i - |vo.calls|];
        } else {
          assert linked[i] == steps[i - |vo.calls| - |fo.calls|];
        }
      }
      if linkStatus == GL_TRUE {
        assert o.calls == linked + [DeleteShader(next + 1), DeleteShader(next + 2)];
      }
    } else if vo.result.Ok? {
      forall i | 0 <= i < |o.calls| ensures !o.calls[i].DeleteShader? {
        if i < |vo.calls| {
          assert o.calls[i] == vo.calls[i];
        } else {
          assert o.calls[i] == fo.calls[i - |vo.calls|];
        }
      }
    }
  }

  /** A fragment stage that fails, after a vertex stage that compiled, gives the fragment
      error: two shader objects were created, and no program is created and nothing deleted. */
  lemma FragmentFailureStops(v: Stage, f: Stage, linkStatus: int, next: nat)
    requires Compiles(v) && !Compiles(f)
    ensures var o := Pipeline(v, f, linkStatus, next);
      o.result == Compile(f, GL_FRAGMENT_SHADER, next + 2).result && o.names == 2 &&
      (forall i :: 0 <= i < |o.calls| ==> !o.calls[i].CreateProgram? && !o.calls[i].DeleteShader?)
  {
    var o := Pipeline(v, f, linkStatus, next);
    var vo := Compile(v, GL_VERTEX_SHADER, next + 1);
    var fo := Compile(f, GL_FRAGMENT_SHADER, next + 2);
    assert o.calls == vo.calls + fo.calls;
    CompileCreatesNoProgram(v, GL_VERTEX_SHADER, next + 1);
    CompileCreatesNoProgram(f, GL_FRAGMENT_SHADER, next + 2);
    forall i | 0 <= i < |o.calls| ensures !o.calls[i].CreateProgram? && !o.calls[i].DeleteShader? {
      if i < |vo.calls| {
        assert o.calls[i] == vo.calls[i];
      } else {
        assert o.calls[i] == fo.calls[i - |vo.calls|];
      }
    }
  }

  /** A fragment stage that reaches the compiler and fails reports the fragment file by
      name, and its status query is the last call. */
  lemma FragmentCompileError(v: Stage, f: Stage, linkStatus: int, next: nat)
    requires Compiles(v) && f.source.Text? && 0 !in f.source.bytes && f.status != GL_TRUE
    ensures var o := Pipeline(v, f, linkStatus, next);
      o.result == Err("Shader compilation failed: " + f.path) &&
      o.calls[|o.calls| - 1] == GetShaderiv(next + 2, GL_COMPILE_STATUS)
  {
  }

  /** A link failure reports both file names and deletes neither shader object. */
  lemma LinkFailureMessage(v: Stage, f: Stage, linkStatus: int, next: nat)
    requires Compiles(v) && Compiles(f) && linkStatus != GL_TRUE
    ensures var o := Pipeline(v, f, linkStatus, next);
      o.result == Err("Shader linking failed: " + v.path + " " + f.path) &&
      o.calls[|o.calls| - 1] == GetProgramiv(next + 3, GL_LINK_STATUS)
  {
  }

  /** The calls of binding a program whose flag is `wasBound`. */
  function UseCall(wasBound: bool, program: nat): seq<Call>
  {
    if wasBound then [] else [UseProgram(program)]
  }

  /** The program a call sequence leaves in use: the argument of its last `UseProgram`
      (0 when there is none, which is what the driver starts with). */
  function InUse(cs: seq<Call>): nat
  {
    if cs == [] then 0
    else if cs[|cs| - 1].UseProgram? then cs[|cs| - 1].program
    else InUse(cs[..|cs| - 1])
  }

  /** Calls other than `UseProgram` do not change the program in use. */
  lemma {:induction false} InUseAppend(cs: seq<Call>, more: seq<Call>)
    requires forall i :: 0 <= i < |more| ==> !more[i].UseProgram?
    ensures InUse(cs + more) == InUse(cs)
  {
    if more != [] {
      var init := more[..|more| - 1];
      assert (cs + more)[..|cs + more| - 1] == cs + init;
      assert (cs + more)[|cs + more| - 1] == more[|more| - 1];
      InUseAppend(cs, init);
    } else {
      assert cs + more == cs;
    }
  }

  /** A shader program and its cached "in use" flag. */
  class Shader {
    const id: nat
    var bound: bool

    /** The program `program`, not yet in use. */
    constructor Init(program: nat)
      ensures id == program && !bound
    {
      id := program;
      bound := false;
    }

    /** The value `Default` derives: program 0, not in use. */
    constructor Default()
      ensures id == 0 && !bound
    {
      id := 0;
      bound := false;
    }

    /** Compiles one stage: a shader object is created first, then the file's bytes
        are checked for NUL, handed over and compiled, and the status is queried. */
    static method CompileShader(stage: Stage, kind: int, gl: Driver) returns (r: Result<nat>)
      modifies gl
      ensures var o := Compile(stage, kind, old(gl.issued) + 1);
        r == o.result && gl.log == old(gl.log) + o.calls && gl.issued == old(gl.issued) + o.names
    {
      var shader := gl.Fresh();
      gl.Issue(Call.CreateShader(kind, shader));
      match stage.source {
        case Unreadable(reason) =>
          return Err(reason);
        case Text(bytes) =>
          var nul := FirstNul(bytes);
          if nul.Some? {
            return Err(NulMessage(nul.value));
          }
          gl.Issue(ShaderSource(shader, bytes));
          gl.Issue(Call.CompileShader(shader));
          gl.Issue(GetShaderiv(shader, GL_COMPILE_STATUS));
          if stage.status != GL_TRUE {
            return Err("Shader compilation failed: " + stage.path);
          }
      }
      r := Ok(shader);
    }

    /** Compiles the vertex stage, then the fragment stage, then links them; returns the
        program's name or the first error. */
    static method CreateShader(vertex: Stage, fragment: Stage, linkStatus: int, gl: Driver)
      returns (r: Result<nat>)
      modifies gl
      ensures var o := Pipeline(vertex, fragment, linkStatus, old(gl.issued));
        r == o.result && gl.log == old(gl.log) + o.calls && gl.issued == old(gl.issued) + o.names
    {
      var vs := CompileShader(vertex, GL_VERTEX_SHADER, gl);
      if vs.Err? {
        return vs;
      }
      var fs := CompileShader(fragment, GL_FRAGMENT_SHADER, gl);
      if fs.Err? {
        return fs;
      }
      r := LinkStages(vs.value, fs.value, vertex.path, fragment.path, linkStatus, gl);
    }

    /** The link half of `CreateShader`: a fresh program, both stages attached, linked,
        its status queried; on success the two shader objects are deleted. */
    static method LinkStages(vertexShader: nat, fragmentShader: nat, vertex: string, fragment: string,
                             linkStatus: int, gl: Driver) returns (r: Result<nat>)
      modifies gl
      ensures var o := Link(vertexShader, fragmentShader, vertex, fragment, linkStatus, old(gl.issued) + 1);
        r == o.result && gl.log == old(gl.log) + o.calls && gl.issued == old(gl.issued) + o.names
    {
      var program := gl.Fresh();
      gl.Issue(CreateProgram(program));
      gl.Issue(AttachShader(program, vertexShader));
      gl.Issue(AttachShader(program, fragmentShader));
      gl.Issue(LinkProgram(program));
      gl.Issue(GetProgramiv(program, GL_LINK_STATUS));
      if linkStatus != GL_TRUE {
        return Err("Shader linking failed: " + vertex + " " + fragment);
      }
      gl.Issue(DeleteShader(vertexShader));
      gl.Issue(DeleteShader(fragmentShader));
      r := Ok(program);
    }

    /** Builds the program and, on success, returns it in use. */
    static method New(vertex: Stage, fragment: Stage, linkStatus: int, gl: Driver) returns (r: Result<Shader>)
      modifies gl
      ensures var o := Pipeline(vertex, fragment, linkStatus, old(gl.issued));
        gl.issued == old(gl.issued) + o.names &&
        r.Ok? == o.result.Ok? &&
        (r.Err? ==> r.error == o.result.error && gl.log == old(gl.log) + o.calls) &&
        (r.Ok? ==> fresh(r.value) && r.value.id == o.result.value && r.value.bound &&
                   gl.log == old(gl.log) + o.calls + [UseProgram(r.value.id)])
    {
      var program := CreateShader(vertex, fragment, linkStatus, gl);
      if program.Err? {
        return Err(program.error);
      }
      var instance := new Shader.Init(program.value);
      instance.Bind(gl);
      r := Ok(instance);
    }

    /** Puts the program in use unless the flag says it is already; idempotent. */
    method Bind(gl: Driver)
      modifies this, gl
      ensures bound
      ensures gl.log == old(gl.log) + UseCall(old(bound), id)
      ensures gl.issued == old(gl.issued)
    {
      if !bound {
        gl.Issue(UseProgram(id));
        bound := true;
      }
    }

    /** Stops using the program if the flag says it is in use; idempotent. */
    method Unbind(gl: Driver)
      modifies this, gl
      ensures !bound
      ensures gl.log == old(gl.log) + (if old(bound) then [UseProgram(0)] else [])
      ensures gl.issued == old(gl.issued)
    {
      if bound {
        gl.Issue(UseProgram(0));
        bound := false;
      }
    }

    /** The program's name, as stored. */
    function Id(): (r: nat)
    {
      id
    }

    /** Dropping the program deletes it, whether or not it is in use. */
    method Drop(gl: Driver)
      modifies gl
      ensures gl.log == old(gl.log) + [DeleteProgram(id)]
      ensures gl.issued == old(gl.issued)
    {
      gl.Issue(DeleteProgram(id));
    }
  }
}
