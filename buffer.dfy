/** Vertex arrays, vertex buffers, element buffers and the interleaved vertex
    layout that links a vertex buffer's bytes to shader attribute slots. */
module Buffers {
  import opened Gl

  // ---------------------------------------------------------------------
  // Vertex layout
  // ---------------------------------------------------------------------

  /** One attribute of an interleaved vertex record: scalar type and component count. */
  datatype LayoutItem = Integer(count: u8) | Float(count: u8)

  /** An attribute layout: slot index to item, iterated in ascending slot order. */
  type Attribs = map<u8, LayoutItem>

  const SizeOfGLfloat: nat := 4
  const SizeOfGLint: nat := 4
  const SizeOfU32: nat := 4

  /** The bytes an item occupies in one vertex record, as the running offset advances. */
  function ByteSize(item: LayoutItem): nat
  {
    match item
    case Float(n) => n * SizeOfGLfloat
    case Integer(n) => n * SizeOfGLint
  }

  /** What the stride fold adds for an item.  The source sizes Integer items with
      GLfloat and Float items with GLint; both are four bytes, so the swap has no effect. */
  function StrideTerm(item: LayoutItem): (r: nat)
    ensures r == ByteSize(item)
  {
    match item
    case Integer(n) => n * SizeOfGLfloat
    case Float(n) => n * SizeOfGLint
  }

  /** The scalar type an item is linked with. */
  function AttribType(item: LayoutItem): int
  {
    match item
    case Float(_) => GL_FLOAT
    case Integer(_) => GL_INT
  }

  /** The slots of `m` below `n`, in the ascending order in which an ordered map iterates. */
  function SlotsBelow(m: Attribs, n: nat): (r: seq<u8>)
    requires n <= 0x100
    ensures forall i :: 0 <= i < |r| ==> r[i] in m && r[i] < n
  {
    if n == 0 then []
    else
      var k := (n - 1) as u8;
      SlotsBelow(m, n - 1) + (if k in m then [k] else [])
  }

  /** The slots are listed in strictly ascending order. */
  lemma {:induction false} SlotsBelowAscending(m: Attribs, n: nat)
    requires n <= 0x100
    ensures forall i, j :: 0 <= i < j < |SlotsBelow(m, n)| ==> SlotsBelow(m, n)[i] < SlotsBelow(m, n)[j]
  {
    if n > 0 {
      SlotsBelowAscending(m, n - 1);
    }
  }

  /** Every slot of `m` below `n` is listed. */
  lemma {:induction false} SlotsBelowComplete(m: Attribs, n: nat)
    requires n <= 0x100
    ensures forall k: u8 :: k < n && k in m ==> k in SlotsBelow(m, n)
  {
    if n > 0 {
      SlotsBelowComplete(m, n - 1);
    }
  }

  /** All slots of `m`, ascending: the iteration order of the source's `BTreeMap`. */
  function Slots(m: Attribs): seq<u8>
  {
    SlotsBelow(m, 0x100)
  }

  /** Every element of `s` is a slot of `m`. */
  ghost predicate AllIn(m: Attribs, s: seq<u8>)
  {
    forall i :: 0 <= i < |s| ==> s[i] in m
  }

  /** The bytes of the items at `s`, accumulated front to back as the link loop's offset
      is (a slot missing from `m` adds nothing). */
  function SumBytes(m: Attribs, s: seq<u8>): nat
  {
    if s == [] then 0
    else
      var last := s[|s| - 1];
      SumBytes(m, s[..|s| - 1]) + (if last in m then ByteSize(m[last]) else 0)
  }

  /** The source's stride fold over the items at `s` (accumulated front to back). */
  function StrideSum(m: Attribs, s: seq<u8>): nat
  {
    if s == [] then 0
    else
      var last := s[|s| - 1];
      StrideSum(m, s[..|s| - 1]) + (if last in m then StrideTerm(m[last]) else 0)
  }

  /** The stride `link` computes: the fold over every item of the layout. */
  function Stride(m: Attribs): nat
  {
    StrideSum(m, Slots(m))
  }

  /** Reference definition: the byte sizes of all items at slots below `n`, summed. */
  function BytesBelow(m: Attribs, n: nat): nat
    requires n <= 0x100
  {
    if n == 0 then 0
    else BytesBelow(m, n - 1) + (if (n - 1) as u8 in m then ByteSize(m[(n - 1) as u8]) else 0)
  }

  /** The calls `VertexArray.LinkAttribute` issues after its own bind: bind the
      vertex buffer (unless its flag says bound), describe the slot, enable it. */
  function AttributeCalls(vbo: nat, vboBound: bool, index: nat, components: int, ty: int,
                          stride: int, offset: nat): seq<Call>
  {
    (if vboBound then [] else [BindBuffer(GL_ARRAY_BUFFER, vbo)])
    + [VertexAttribPointer(index, components, ty, false, stride, offset), EnableVertexAttribArray(index)]
  }

  /** The calls of linking, slot by slot, the slots `s` of `m`, each at the offset
      the slots before it add up to. */
  function AttribCalls(m: Attribs, s: seq<u8>, vbo: nat, vboBound: bool, stride: int): seq<Call>
  {
    if s == [] then []
    else
      var init, last := s[..|s| - 1], s[|s| - 1];
      AttribCalls(m, init, vbo, vboBound, stride)
      + (if last in m
         then AttributeCalls(vbo, vboBound, last, m[last].count, AttribType(m[last]), stride, SumBytes(m, init))
         else [])
  }

  /** One step of the link loop: linking one more slot appends that slot's calls, at the running offset. */
  lemma AttribCallsStep(m: Attribs, s: seq<u8>, i: nat, vbo: nat, vboBound: bool, stride: int)
    requires AllIn(m, s) && i < |s|
    ensures AttribCalls(m, s[..i + 1], vbo, vboBound, stride)
         == AttribCalls(m, s[..i], vbo, vboBound, stride)
            + AttributeCalls(vbo, vboBound, s[i], m[s[i]].count, AttribType(m[s[i]]), stride, SumBytes(m, s[..i]))
    ensures SumBytes(m, s[..i + 1]) == SumBytes(m, s[..i]) + ByteSize(m[s[i]])
  {
    assert s[..i + 1][..i] == s[..i];
  }

  /** The calls `VertexAttribDescriptor.Link` issues: the first `LinkAttribute` binds
      the vertex array if its flag says unbound; every slot then follows in ascending order. */
  function LinkCalls(m: Attribs, vao: nat, vaoBound: bool, vbo: nat, vboBound: bool): seq<Call>
  {
    (if !vaoBound && Slots(m) != [] then [BindVertexArray(vao)] else [])
    + AttribCalls(m, Slots(m), vbo, vboBound, Stride(m))
  }

  /** The attribute-pointer calls of a call sequence, in order. */
  function Pointers(cs: seq<Call>): seq<Call>
  {
    if cs == [] then []
    else (if cs[0].VertexAttribPointer? then [cs[0]] else []) + Pointers(cs[1..])
  }

  lemma {:induction false} PointersAppend(a: seq<Call>, b: seq<Call>)
    ensures Pointers(a + b) == Pointers(a) + Pointers(b)
  {
    if a == [] {
      assert a + b == b;
    } else {
      var ab := a + b;
      var head := if a[0].VertexAttribPointer? then [a[0]] else [];
      assert ab[0] == a[0] && ab[1..] == a[1..] + b;
      PointersAppend(a[1..], b);
      calc {
        Pointers(ab);
        head + Pointers(a[1..] + b);
        head + (Pointers(a[1..]) + Pointers(b));
        (head + Pointers(a[1..])) + Pointers(b);
      }
    }
  }

  lemma PointersOfAttributeCalls(vbo: nat, vboBound: bool, index: nat, components: int, ty: int,
                                 stride: int, offset: nat)
    ensures Pointers(AttributeCalls(vbo, vboBound, index, components, ty, stride, offset))
         == [VertexAttribPointer(index, components, ty, false, stride, offset)]
  {
    var p := VertexAttribPointer(index, components, ty, false, stride, offset);
    var e := EnableVertexAttribArray(index);
    assert Pointers([e]) == [] by { assert [e][1..] == []; }
    assert Pointers([p, e]) == [p] by { assert [p, e][1..] == [e]; }
    if vboBound {
      assert AttributeCalls(vbo, vboBound, index, components, ty, stride, offset) == [p, e];
    } else {
      var b := BindBuffer(GL_ARRAY_BUFFER, vbo);
      assert AttributeCalls(vbo, vboBound, index, components, ty, stride, offset) == [b, p, e];
      assert [b, p, e][1..] == [p, e];
    }
  }

  /** Linking one more slot appends that slot's attribute pointer. */
  lemma AttribPointersSnoc(m: Attribs, s: seq<u8>, vbo: nat, vboBound: bool, stride: int)
    requires s != [] && s[|s| - 1] in m
    ensures var init, last := s[..|s| - 1], s[|s| - 1];
      Pointers(AttribCalls(m, s, vbo, vboBound, stride))
        == Pointers(AttribCalls(m, init, vbo, vboBound, stride))
           + [VertexAttribPointer(last, m[last].count, AttribType(m[last]), false, stride, SumBytes(m, init))]
  {
    var init, last := s[..|s| - 1], s[|s| - 1];
    var tail := AttributeCalls(vbo, vboBound, last, m[last].count, AttribType(m[last]), stride, SumBytes(m, init));
    PointersAppend(AttribCalls(m, init, vbo, vboBound, stride), tail);
    PointersOfAttributeCalls(vbo, vboBound, last, m[last].count, AttribType(m[last]), stride, SumBytes(m, init));
  }

  /** Linking the slots `s` issues one attribute pointer per slot. */
  lemma {:induction false} AttribPointersLength(m: Attribs, s: seq<u8>, vbo: nat, vboBound: bool, stride: int)
    requires AllIn(m, s)
    ensures |Pointers(AttribCalls(m, s, vbo, vboBound, stride))| == |s|
  {
    if s != [] {
      assert AllIn(m, s[..|s| - 1]);
      AttribPointersLength(m, s[..|s| - 1], vbo, vboBound, stride);
      AttribPointersSnoc(m, s, vbo, vboBound, stride);
    }
  }

  /** The `i`-th attribute pointer of linking the slots `s` describes slot `s[i]` with
      the given stride and the offset the slots before it add up to. */
  lemma {:induction false} AttribPointerAt(m: Attribs, s: seq<u8>, vbo: nat, vboBound: bool, stride: int, i: nat)
    requires AllIn(m, s) && i < |s|
    ensures |Pointers(AttribCalls(m, s, vbo, vboBound, stride))| == |s|
    ensures Pointers(AttribCalls(m, s, vbo, vboBound, stride))[i]
         == VertexAttribPointer(s[i], m[s[i]].count, AttribType(m[s[i]]), false, stride, SumBytes(m, s[..i]))
  {
    var init := s[..|s| - 1];
    assert AllIn(m, init);
    AttribPointersLength(m, s, vbo, vboBound, stride);
    AttribPointersLength(m, init, vbo, vboBound, stride);
    AttribPointersSnoc(m, s, vbo, vboBound, stride);
    if i < |init| {
      AttribPointerAt(m, init, vbo, vboBound, stride, i);
      assert s[i] == init[i] && s[..i] == init[..i];
    } else {
      assert s[..i] == init;
    }
  }

  /** The prefix of the ascending slots before position `i` is exactly the slots below `SlotsBelow(m, n)[i]`. */
  lemma {:induction false} SlotsBelowPrefix(m: Attribs, n: nat, i: nat)
    requires n <= 0x100 && i < |SlotsBelow(m, n)|
    ensures SlotsBelow(m, n)[..i] == SlotsBelow(m, SlotsBelow(m, n)[i])
  {
    var p := SlotsBelow(m, n - 1);
    if i < |p| {
      assert SlotsBelow(m, n)[..i] == p[..i];
      SlotsBelowPrefix(m, n - 1, i);
    } else {
      assert SlotsBelow(m, n)[..i] == p;
    }
  }

  /** Summing the byte sizes in ascending slot order agrees with the reference sum. */
  lemma {:induction false} SumBytesBelow(m: Attribs, n: nat)
    requires n <= 0x100
    ensures SumBytes(m, SlotsBelow(m, n)) == BytesBelow(m, n)
  {
    if n > 0 {
      SumBytesBelow(m, n - 1);
      var p, s := SlotsBelow(m, n - 1), SlotsBelow(m, n);
      var k := (n - 1) as u8;
      if k in m {
        assert s == p + [k];
        assert s[..|s| - 1] == p && s[|s| - 1] == k;
      } else {
        assert s == p;
      }
    }
  }

  lemma {:induction false} StrideSumIsSumBytes(m: Attribs, s: seq<u8>)
    ensures StrideSum(m, s) == SumBytes(m, s)
  {
    if s != [] {
      StrideSumIsSumBytes(m, s[..|s| - 1]);
    }
  }

  /** The stride is the byte size of all items of the layout together. */
  lemma StrideIsTotalBytes(m: Attribs)
    ensures Stride(m) == BytesBelow(m, 0x100)
  {
    StrideSumIsSumBytes(m, Slots(m));
    SumBytesBelow(m, 0x100);
  }

  lemma {:induction false} BytesBelowBound(m: Attribs, n: nat)
    requires n <= 0x100
    ensures BytesBelow(m, n) <= n * 0xFF * 4
  {
    if n > 0 {
      BytesBelowBound(m, n - 1);
    }
  }

  /** The stride (and so every offset) fits in the `i32` the source casts it to. */
  lemma StrideFitsI32(m: Attribs)
    ensures Stride(m) <= 0x100 * 0xFF * 4 < 0x8000_0000
  {
    StrideIsTotalBytes(m);
    BytesBelowBound(m, 0x100);
  }

  /** `Link` issues exactly one attribute pointer per slot, in ascending slot order; slot
      `k` is described with its own component count and type, the layout's stride, and the
      byte size of all lower slots as offset. */
  lemma LinkPointers(m: Attribs, vao: nat, vaoBound: bool, vbo: nat, vboBound: bool)
    ensures |Pointers(LinkCalls(m, vao, vaoBound, vbo, vboBound))| == |Slots(m)|
    ensures forall i :: 0 <= i < |Slots(m)| ==>
      Pointers(LinkCalls(m, vao, vaoBound, vbo, vboBound))[i]
        == VertexAttribPointer(Slots(m)[i], m[Slots(m)[i]].count, AttribType(m[Slots(m)[i]]),
                               false, Stride(m), BytesBelow(m, Slots(m)[i]))
  {
    var s := Slots(m);
    var ps := Pointers(AttribCalls(m, s, vbo, vboBound, Stride(m)));
    assert Pointers(LinkCalls(m, vao, vaoBound, vbo, vboBound)) == ps by {
      var head: seq<Call> := if !vaoBound && s != [] then [BindVertexArray(vao)] else [];
      assert Pointers(head) == [] by {
        if head != [] { assert head[1..] == []; }
      }
      PointersAppend(head, AttribCalls(m, s, vbo, vboBound, Stride(m)));
    }
    AttribPointersLength(m, s, vbo, vboBound, Stride(m));
    forall i | 0 <= i < |s|
      ensures ps[i] == VertexAttribPointer(s[i], m[s[i]].count, AttribType(m[s[i]]), false, Stride(m), BytesBelow(m, s[i]))
    {
      AttribPointerAt(m, s, vbo, vboBound, Stride(m), i);
      SlotOffset(m, i);
    }
  }

  /** The running offset at slot position `i` is the byte size of all lower slots. */
  lemma SlotOffset(m: Attribs, i: nat)
    requires i < |Slots(m)|
    ensures SumBytes(m, Slots(m)[..i]) == BytesBelow(m, Slots(m)[i])
  {
    SlotsBelowPrefix(m, 0x100, i);
    SumBytesBelow(m, Slots(m)[i]);
  }

  lemma {:induction false} SlotsBelowGap(m: Attribs, k: nat, n: nat)
    requires k <= n <= 0x100
    requires forall j: u8 :: k <= j < n ==> j !in m
    ensures SlotsBelow(m, n) == SlotsBelow(m, k)
  {
    if k < n {
      SlotsBelowGap(m, k, n - 1);
    }
  }

  /** The fractal quad's layout: position then texture coordinate, both `Float(2)`. */
  function QuadAttribs(): Attribs
  {
    map[0 := Float(2), 1 := Float(2)]
  }

  /** The quad's slots are 0 and 1. */
  lemma QuadSlots()
    ensures Slots(QuadAttribs()) == [0, 1]
  {
    var m := QuadAttribs();
    SlotsBelowGap(m, 2, 0x100);
    assert SlotsBelow(m, 0) == [];
    assert SlotsBelow(m, 1) == [0];
  }

  /** The quad's stride is 16 bytes. */
  lemma QuadStride()
    ensures Stride(QuadAttribs()) == 16
  {
    var m := QuadAttribs();
    QuadSlots();
    assert [0, 1][..1] == [0];
    assert [0][..0] == [];
    assert StrideSum(m, [0]) == 8;
  }

  /** The quad's attribute pointers: stride 16 bytes, offsets 0 and 8. */
  lemma QuadLayout(vao: nat, vaoBound: bool, vbo: nat, vboBound: bool)
    ensures Pointers(LinkCalls(QuadAttribs(), vao, vaoBound, vbo, vboBound))
         == [VertexAttribPointer(0, 2, GL_FLOAT, false, 16, 0), VertexAttribPointer(1, 2, GL_FLOAT, false, 16, 8)]
  {
    var m := QuadAttribs();
    QuadSlots();
    QuadStride();
    LinkPointers(m, vao, vaoBound, vbo, vboBound);
    var ps := Pointers(LinkCalls(m, vao, vaoBound, vbo, vboBound));
    assert |ps| == 2;
    assert ps[0] == VertexAttribPointer(0, 2, GL_FLOAT, false, 16, BytesBelow(m, 0));
    assert ps[1] == VertexAttribPointer(1, 2, GL_FLOAT, false, 16, BytesBelow(m, 1));
    assert BytesBelow(m, 1) == 8;
  }

  lemma Reassociate(a: seq<Call>, h: seq<Call>, d: seq<Call>, v: seq<Call>, t: seq<Call>)
    requires d == [] || v == []
    ensures a + h + d + v + t == a + (h + v) + (d + t)
  {
  }

  /** The calls of binding a vertex array whose flag is `wasBound`. */
  function VaoBind(wasBound: bool, vao: nat): seq<Call>
  {
    if wasBound then [] else [BindVertexArray(vao)]
  }

  /** The calls of unbinding a vertex array whose flag is `wasBound`. */
  function VaoUnbind(wasBound: bool): seq<Call>
  {
    if wasBound then [BindVertexArray(0)] else []
  }

  /** The layout of an interleaved vertex record (the builder the source chains). */
  class VertexAttribDescriptor {
    var items: Attribs

    constructor ()
      ensures items == map[]
    {
      items := map[];
    }

    /** Sets slot `id` to `item`, replacing any item there; every other slot is kept. */
    method Layout(id: u8, item: LayoutItem) returns (self: VertexAttribDescriptor)
      modifies this
      ensures items == old(items)[id := item]
      ensures self == this
    {
      items := items[id := item];
      self := this;
    }

    /** Links every slot, in ascending order, with one stride and a running offset. */
    method Link(vao: VertexArray, vbo: VertexBuffer, gl: Driver)
      modifies vao, vbo, gl
      ensures gl.log == old(gl.log) + LinkCalls(items, vao.id, old(vao.bound), vbo.id, old(vbo.bound))
      ensures vao.bound == (old(vao.bound) || Slots(items) != [])
      ensures vbo.bound == old(vbo.bound)
      ensures gl.issued == old(gl.issued)
    {
      LinkSlots(Slots(items), Stride(items), vao, vbo, gl);
    }

    /** Describes the attributes at `slots`, in that order, with byte stride `stride`. */
    method LinkSlots(slots: seq<u8>, stride: int, vao: VertexArray, vbo: VertexBuffer, gl: Driver)
      requires AllIn(items, slots)
      modifies vao, vbo, gl
      ensures gl.log == old(gl.log) + (if !old(vao.bound) && slots != [] then [BindVertexArray(vao.id)] else [])
                        + AttribCalls(items, slots, vbo.id, old(vbo.bound), stride)
      ensures vao.bound == (old(vao.bound) || slots != [])
      ensures vbo.bound == old(vbo.bound)
      ensures gl.issued == old(gl.issued)
    {
      var offset := 0;
      var i := 0;
      ghost var head: seq<Call> := [];
      ghost var done: seq<Call> := [];
      while i < |slots|
        invariant i <= |slots|
        invariant offset == SumBytes(items, slots[..i])
        invariant vao.bound == (old(vao.bound) || i > 0)
        invariant vbo.bound == old(vbo.bound)
        invariant gl.issued == old(gl.issued)
        invariant head == if !old(vao.bound) && i > 0 then [BindVertexArray(vao.id)] else []
        invariant done == AttribCalls(items, slots[..i], vbo.id, old(vbo.bound), stride)
        invariant gl.log == old(gl.log) + head + done
      {
        var slot := slots[i];
        ghost var wasBound := vao.bound;
        AttribCallsStep(items, slots, i, vbo.id, old(vbo.bound), stride);
        ghost var step := AttributeCalls(vbo.id, old(vbo.bound), slot, items[slot].count,
                                         AttribType(items[slot]), stride, offset);
        if i == 0 {
          assert slots[..0] == [];
        }
        Reassociate(old(gl.log), head, done, VaoBind(wasBound, vao.id), step);
        match items[slot] {
          case Float(count) =>
            vao.LinkAttribute(vbo, slot, count, GL_FLOAT, stride, offset, gl);
            offset := offset + count * SizeOfGLfloat;
          case Integer(count) =>
            vao.LinkAttribute(vbo, slot, count, GL_INT, stride, offset, gl);
            offset := offset + count * SizeOfGLint;
        }
        head := head + VaoBind(wasBound, vao.id);
        done := done + step;
        i := i + 1;
      }
      assert slots[..i] == slots;
    }
  }

  /** A vertex array object and its cached bound flag. */
  class VertexArray {
    const id: nat
    var bound: bool

    constructor (gl: Driver)
      modifies gl
      ensures id == old(gl.issued) + 1 && gl.issued == id
      ensures !bound
      ensures gl.log == old(gl.log) + [GenVertexArrays(id)]
    {
      var name := gl.Fresh();
      gl.Issue(GenVertexArrays(name));
      id := name;
      bound := false;
    }

    /** Binds this array and `vbo`, describes attribute `layout` and enables it. */
    method LinkAttribute(vbo: VertexBuffer, layout: nat, items: int, ty: int, strideBytes: int,
                         offset: nat, gl: Driver)
      modifies this, vbo, gl
      ensures bound && vbo.bound == old(vbo.bound)
      ensures gl.log == old(gl.log) + VaoBind(old(bound), id)
                        + AttributeCalls(vbo.id, old(vbo.bound), layout, items, ty, strideBytes, offset)
      ensures gl.issued == old(gl.issued)
    {
      Bind(gl);
      vbo.Bind(gl);
      gl.Issue(VertexAttribPointer(layout, items, ty, false, strideBytes, offset));
      gl.Issue(EnableVertexAttribArray(layout));
    }

    /** Binds the array unless the flag says it is bound already; idempotent. */
    method Bind(gl: Driver)
      modifies this, gl
      ensures bound
      ensures gl.log == old(gl.log) + VaoBind(old(bound), id)
      ensures gl.issued == old(gl.issued)
    {
      if !bound {
        gl.Issue(BindVertexArray(id));
        bound := true;
      }
    }

    /** Unbinds the array if the flag says it is bound; idempotent. */
    method Unbind(gl: Driver)
      modifies this, gl
      ensures !bound
      ensures gl.log == old(gl.log) + VaoUnbind(old(bound))
      ensures gl.issued == old(gl.issued)
    {
      if bound {
        gl.Issue(BindVertexArray(0));
        bound := false;
      }
    }

    /** Dropping the array: unbind, then delete. */
    method Drop(gl: Driver)
      modifies this, gl
      ensures !bound
      ensures gl.log == old(gl.log) + VaoUnbind(old(bound)) + [DeleteVertexArrays(id)]
      ensures gl.issued == old(gl.issued)
    {
      Unbind(gl);
      gl.Issue(DeleteVertexArrays(id));
    }
  }

  /** A vertex buffer.  Its `Bind` writes `false` to the flag, so the flag never becomes
      true and every `Bind` issues a `BindBuffer`. */
  class VertexBuffer {
    const id: nat
    var bound: bool

    /** Binds `vao` first, then generates the buffer. */
    constructor (vao: VertexArray, gl: Driver)
      modifies vao, gl
      ensures vao.bound && !bound
      ensures id == old(gl.issued) + 1 && gl.issued == id
      ensures gl.log == old(gl.log) + VaoBind(old(vao.bound), vao.id) + [GenBuffers(id)]
    {
      vao.Bind(gl);
      var name := gl.Fresh();
      gl.Issue(GenBuffers(name));
      id := name;
      bound := false;
    }

    /** Binds, then replaces the buffer's store with `data` (four bytes per float). */
    method SetData(data: seq<F32>, gl: Driver)
      requires |data| > 0
      modifies this, gl
      ensures bound == old(bound)
      ensures gl.log == old(gl.log) + (if old(bound) then [] else [BindBuffer(GL_ARRAY_BUFFER, id)])
                        + [BufferData(GL_ARRAY_BUFFER, |data| * SizeOfGLfloat, Floats(data), GL_STATIC_DRAW)]
      ensures gl.issued == old(gl.issued)
    {
      Bind(gl);
      gl.Issue(BufferData(GL_ARRAY_BUFFER, |data| * SizeOfGLfloat, Floats(data), GL_STATIC_DRAW));
    }

    /** Issues the bind when the flag says unbound, and then writes `false` to the flag. */
    method Bind(gl: Driver)
      modifies this, gl
      ensures bound == old(bound)
      ensures gl.log == old(gl.log) + (if old(bound) then [] else [BindBuffer(GL_ARRAY_BUFFER, id)])
      ensures gl.issued == old(gl.issued)
    {
      if !bound {
        gl.Issue(BindBuffer(GL_ARRAY_BUFFER, id));
        bound := false;
      }
    }

    method Unbind(gl: Driver)
      modifies this, gl
      ensures !bound
      ensures gl.log == old(gl.log) + (if old(bound) then [BindBuffer(GL_ARRAY_BUFFER, 0)] else [])
      ensures gl.issued == old(gl.issued)
    {
      if bound {
        gl.Issue(BindBuffer(GL_ARRAY_BUFFER, 0));
        bound := false;
      }
    }

    /** Dropping the buffer: unbind, then delete. */
    method Drop(gl: Driver)
      modifies this, gl
      ensures !bound
      ensures gl.log == old(gl.log) + (if old(bound) then [BindBuffer(GL_ARRAY_BUFFER, 0)] else [])
                        + [DeleteBuffers(id)]
      ensures gl.issued == old(gl.issued)
    {
      Unbind(gl);
      gl.Issue(DeleteBuffers(id));
    }
  }

  /** An element (index) buffer, nested under a vertex array: its bind and unbind first
      bind or unbind the array.  Like `VertexBuffer`, its `Bind` writes `false` to the flag. */
  class ElementBuffer {
    const id: nat
    var bound: bool

    /** Generates the buffer, then binds it, which leaves `vao` bound. */
    constructor (vao: VertexArray, gl: Driver)
      modifies vao, gl
      ensures vao.bound && !bound
      ensures id == old(gl.issued) + 1 && gl.issued == id
      ensures gl.log == old(gl.log) + [GenBuffers(id)] + VaoBind(old(vao.bound), vao.id)
                        + [BindBuffer(GL_ELEMENT_ARRAY_BUFFER, id)]
    {
      var name := gl.Fresh();
      gl.Issue(GenBuffers(name));
      id := name;
      bound := false;
      new;
      Bind(vao, gl);
    }

    /** Binds (with `vao`), then replaces the buffer's store with `data` (four bytes per index). */
    method SetData(data: seq<u32>, vao: VertexArray, gl: Driver)
      requires |data| > 0
      modifies this, vao, gl
      ensures vao.bound && bound == old(bound)
      ensures gl.log == old(gl.log) + VaoBind(old(vao.bound), vao.id)
                        + (if old(bound) then [] else [BindBuffer(GL_ELEMENT_ARRAY_BUFFER, id)])
                        + [BufferData(GL_ELEMENT_ARRAY_BUFFER, |data| * SizeOfU32, Indices(data), GL_STATIC_DRAW)]
      ensures gl.issued == old(gl.issued)
    {
      Bind(vao, gl);
      gl.Issue(BufferData(GL_ELEMENT_ARRAY_BUFFER, |data| * SizeOfU32, Indices(data), GL_STATIC_DRAW));
    }

    /** Binds `vao`, then issues this buffer's bind when the flag says unbound and writes
        `false` to the flag. */
    method Bind(vao: VertexArray, gl: Driver)
      modifies this, vao, gl
      ensures vao.bound && bound == old(bound)
      ensures gl.log == old(gl.log) + VaoBind(old(vao.bound), vao.id)
                        + (if old(bound) then [] else [BindBuffer(GL_ELEMENT_ARRAY_BUFFER, id)])
      ensures gl.issued == old(gl.issued)
    {
      vao.Bind(gl);
      if !bound {
        gl.Issue(BindBuffer(GL_ELEMENT_ARRAY_BUFFER, id));
        bound := false;
      }
    }

    /** Unbinds `vao`, then this buffer if the flag says bound. */
    method Unbind(vao: VertexArray, gl: Driver)
      modifies this, vao, gl
      ensures !vao.bound && !bound
      ensures gl.log == old(gl.log) + VaoUnbind(old(vao.bound))
                        + (if old(bound) then [BindBuffer(GL_ELEMENT_ARRAY_BUFFER, 0)] else [])
      ensures gl.issued == old(gl.issued)
    {
      vao.Unbind(gl);
      if bound {
        gl.Issue(BindBuffer(GL_ELEMENT_ARRAY_BUFFER, 0));
        bound := false;
      }
    }

    /** Dropping the buffer deletes it without unbinding. */
    method Drop(gl: Driver)
      modifies gl
      ensures gl.log == old(gl.log) + [DeleteBuffers(id)]
      ensures gl.issued == old(gl.issued)
    {
      gl.Issue(DeleteBuffers(id));
    }
  }
}
