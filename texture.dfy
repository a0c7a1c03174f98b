/** 2D textures: created from a decoded image, configured, bound to a texture unit
    and linked to a sampler uniform.  The decoded image (or the decoder's error) is an input. */
module Textures {
  import opened Gl
  import opened Shaders
  import opened Uniforms

  datatype TextureType = Rgb | Rgba
  datatype InterpolationType = Linear | Nearest
  datatype MapType = Repeat | Mirrored

  /** What decoding a PNG file gives: the pixel bytes and the image size. */
  datatype Image = Image(pixels: seq<u8>, width: u32, height: u32)

  /** The values OpenGL accepts for `TEXTURE_MAG_FILTER`. */
  predicate IsMagFilter(p: int)
  {
    p == GL_NEAREST || p == GL_LINEAR
  }

  /** The values OpenGL accepts for `TEXTURE_WRAP_S` and `TEXTURE_WRAP_T`. */
  predicate IsWrapMode(p: int)
  {
    p == GL_REPEAT || p == GL_MIRRORED_REPEAT || p == GL_CLAMP_TO_EDGE || p == GL_CLAMP_TO_BORDER
  }

  /** The filter enumerant for an interpolation type. */
  function GlToEnumInter(ty: InterpolationType): (r: i32)
    ensures IsMagFilter(r)
    ensures r == GL_LINEAR <==> ty == Linear
  {
    match ty
    case Linear => GL_LINEAR
    case Nearest => GL_NEAREST
  }

  /** The wrap enumerant for a map type.  `Mirrored` gives a wrap mode; `Repeat` gives
      the filter value `LINEAR`, which is no wrap mode at all. */
  function GlToEnumMap(ty: MapType): (r: i32)
    ensures IsWrapMode(r) <==> ty == Mirrored
    ensures ty == Repeat <==> r == GlToEnumInter(Linear)
  {
    match ty
    case Repeat => GL_LINEAR
    case Mirrored => GL_MIRRORED_REPEAT
  }

  /** Different interpolation types give different filters, so none is lost. */
  lemma InterInjective(a: InterpolationType, b: InterpolationType)
    ensures GlToEnumInter(a) == GlToEnumInter(b) ==> a == b
  {
  }

  /** The source pixel format the upload declares. */
  function Format(ty: TextureType): int
  {
    match ty
    case Rgb => GL_RGB
    case Rgba => GL_RGBA
  }

  /** The unit `Generate` activates: `TEXTURE0 + unit` as an `i32` sum, cast to `u32`. */
  function GenerateUnit(unit: i32): int
    requires GL_TEXTURE0 + unit < 0x8000_0000
  {
    AsU32(GL_TEXTURE0 + unit)
  }

  /** The calls of uploading `img` to texture `texture` on unit `unit`: select the unit,
      bind, upload (internal format always RGBA), build the mipmaps. */
  function GenerateCalls(texture: nat, img: Image, unit: i32, ty: TextureType): seq<Call>
    requires GL_TEXTURE0 + unit < 0x8000_0000
  {
    [ActiveTexture(GenerateUnit(unit)), BindTexture(GL_TEXTURE_2D, texture),
     TexImage2D(GL_TEXTURE_2D, 0, GL_RGBA, AsI32(img.width), AsI32(img.height), 0, Format(ty),
                GL_UNSIGNED_BYTE, img.pixels),
     GenerateMipmap(GL_TEXTURE_2D)]
  }

  /** The calls of binding texture `texture` whose flag is `wasBound`: unit 0, whatever
      unit the texture was created for. */
  function BindCalls(wasBound: bool, texture: nat): seq<Call>
  {
    if wasBound then [] else [ActiveTexture(GL_TEXTURE0), BindTexture(GL_TEXTURE_2D, texture)]
  }

  /** The four parameter calls of `Settings`. */
  function ParameterCalls(min: InterpolationType, mag: InterpolationType, wrapS: MapType, wrapT: MapType): seq<Call>
  {
    [TexParameteri(GL_TEXTURE_2D, GL_TEXTURE_MIN_FILTER, GlToEnumInter(min)),
     TexParameteri(GL_TEXTURE_2D, GL_TEXTURE_MAG_FILTER, GlToEnumInter(mag)),
     TexParameteri(GL_TEXTURE_2D, GL_TEXTURE_WRAP_S, GlToEnumMap(wrapS)),
     TexParameteri(GL_TEXTURE_2D, GL_TEXTURE_WRAP_T, GlToEnumMap(wrapT))]
  }

  /** The calls of `Settings` on texture `texture` whose flag is `wasBound`: bind, four
      parameters, and an unbind that is always issued because the bind set the flag. */
  function SettingsCalls(wasBound: bool, texture: nat, min: InterpolationType, mag: InterpolationType,
                         wrapS: MapType, wrapT: MapType): seq<Call>
  {
    BindCalls(wasBound, texture) + ParameterCalls(min, mag, wrapS, wrapT) + [BindTexture(GL_TEXTURE_2D, 0)]
  }

  /** The calls of a successful `New` for a texture the driver names `texture`. */
  function NewCalls(texture: nat, img: Image, unit: i32, ty: TextureType): seq<Call>
    requires GL_TEXTURE0 + unit < 0x8000_0000
  {
    [GenTextures(texture)] + GenerateCalls(texture, img, unit, ty)
    + SettingsCalls(false, texture, Nearest, Nearest, Repeat, Repeat) + BindCalls(false, texture)
  }

  /** `Settings` issues exactly four parameter calls between its bind and its unbind,
      all on the 2D target, and nothing else. */
  lemma SettingsShape(wasBound: bool, texture: nat, min: InterpolationType, mag: InterpolationType,
                      wrapS: MapType, wrapT: MapType)
    ensures var cs := SettingsCalls(wasBound, texture, min, mag, wrapS, wrapT);
      var b := |BindCalls(wasBound, texture)|;
      |cs| == b + 5 && cs[..b] == BindCalls(wasBound, texture) && cs[b + 4] == BindTexture(GL_TEXTURE_2D, 0) &&
      (forall i :: b <= i < b + 4 ==> cs[i].TexParameteri? && cs[i].target == GL_TEXTURE_2D)
  {
    var cs := SettingsCalls(wasBound, texture, min, mag, wrapS, wrapT);
    var b := |BindCalls(wasBound, texture)|;
    var ps := ParameterCalls(min, mag, wrapS, wrapT);
    assert cs == BindCalls(wasBound, texture) + ps + [BindTexture(GL_TEXTURE_2D, 0)];
    forall i | b <= i < b + 4 ensures cs[i].TexParameteri? && cs[i].target == GL_TEXTURE_2D {
      assert cs[i] == ps[i - b];
    }
  }

  /** The texture units a call sequence activates, in order. */
  function Activations(cs: seq<Call>): seq<int>
  {
    if cs == [] then []
    else (if cs[0].ActiveTexture? then [cs[0].unit] else []) + Activations(cs[1..])
  }

  lemma {:induction false} ActivationsAppend(a: seq<Call>, b: seq<Call>)
    ensures Activations(a + b) == Activations(a) + Activations(b)
  {
    if a == [] {
      assert a + b == b;
    } else {
      var ab := a + b;
      var head := if a[0].ActiveTexture? then [a[0].unit] else [];
      assert ab[0] == a[0] && ab[1..] == a[1..] + b;
      ActivationsAppend(a[1..], b);
      calc {
        Activations(ab);
        head + Activations(a[1..] + b);
        head + (Activations(a[1..]) + Activations(b));
        (head + Activations(a[1..])) + Activations(b);
      }
    }
  }

  lemma ActivationsOne(c: Call)
    ensures Activations([c]) == if c.ActiveTexture? then [c.unit] else []
  {
    assert [c][1..] == [];
  }

  /** A sequence without `ActiveTexture` calls activates nothing. */
  lemma {:induction false} ActivationsNone(cs: seq<Call>)
    requires forall i :: 0 <= i < |cs| ==> !cs[i].ActiveTexture?
    ensures Activations(cs) == []
  {
    if cs != [] {
      ActivationsNone(cs[1..]);
    }
  }

  /** Binding activates unit 0 and nothing else. */
  lemma BindActivations(wasBound: bool, texture: nat)
    ensures Activations(BindCalls(wasBound, texture)) == if wasBound then [] else [GL_TEXTURE0]
  {
    var b := BindCalls(wasBound, texture);
    if !wasBound {
      ActivationsOne(b[0]);
      ActivationsOne(b[1]);
      ActivationsAppend([b[0]], [b[1]]);
      assert [b[0]] + [b[1]] == b;
    } else {
      assert b == [];
    }
  }

  /** `Settings` activates only what its bind activates. */
  lemma SettingsActivations(wasBound: bool, texture: nat, min: InterpolationType, mag: InterpolationType,
                            wrapS: MapType, wrapT: MapType)
    ensures Activations(SettingsCalls(wasBound, texture, min, mag, wrapS, wrapT))
         == Activations(BindCalls(wasBound, texture))
  {
    var b := BindCalls(wasBound, texture);
    var ps := ParameterCalls(min, mag, wrapS, wrapT);
    var u := [BindTexture(GL_TEXTURE_2D, 0)];
    ActivationsNone(ps);
    ActivationsOne(u[0]);
    ActivationsAppend(b, ps);
    ActivationsAppend(b + ps, u);
  }

  /** `Generate` activates the texture's own unit. */
  lemma GenerateActivations(texture: nat, img: Image, unit: i32, ty: TextureType)
    requires GL_TEXTURE0 + unit < 0x8000_0000
    ensures Activations(GenerateCalls(texture, img, unit, ty)) == [GenerateUnit(unit)]
  {
    var g := GenerateCalls(texture, img, unit, ty);
    ActivationsOne(g[0]);
    ActivationsNone(g[1..]);
    ActivationsAppend([g[0]], g[1..]);
    assert [g[0]] + g[1..] == g;
  }

  /** A new texture selects its own unit once, to upload; both later binds select unit 0.
      For any unit other than 0 the texture is therefore left bound on unit 0. */
  lemma NewActivations(texture: nat, img: Image, unit: i32, ty: TextureType)
    requires 0 <= unit && GL_TEXTURE0 + unit < 0x8000_0000
    ensures Activations(NewCalls(texture, img, unit, ty)) == [GL_TEXTURE0 + unit, GL_TEXTURE0, GL_TEXTURE0]
  {
    var g := GenerateCalls(texture, img, unit, ty);
    var b := BindCalls(false, texture);
    var s := SettingsCalls(false, texture, Nearest, Nearest, Repeat, Repeat);
    ActivationsOne(GenTextures(texture));
    GenerateActivations(texture, img, unit, ty);
    BindActivations(false, texture);
    SettingsActivations(false, texture, Nearest, Nearest, Repeat, Repeat);
    ActivationsAppend([GenTextures(texture)], g);
    ActivationsAppend([GenTextures(texture)] + g, s);
    ActivationsAppend([GenTextures(texture)] + g + s, b);
  }

  /** The upload declares the image's own format but always asks for RGBA storage. */
  lemma UploadFormat(texture: nat, img: Image, unit: i32, ty: TextureType)
    requires GL_TEXTURE0 + unit < 0x8000_0000
    ensures var up := GenerateCalls(texture, img, unit, ty)[2];
      up.TexImage2D? && up.internalFormat == GL_RGBA &&
      (up.format == GL_RGB <==> ty == Rgb) && (up.format == GL_RGBA <==> ty == Rgba) &&
      up.pixels == img.pixels
  {
  }

  /** A texture: its name, the unit it was created for, and its cached bound flag. */
  class Texture {
    const id: nat
    const unit: i32
    var bound: bool

    constructor Init(texture: nat, unit': i32)
      ensures id == texture && unit == unit' && !bound
    {
      id := texture;
      unit := unit';
      bound := false;
    }

    /** Creates a texture from the decoder's answer `decoded` on unit `unit'`.  A decoder
        error is returned before any driver call; otherwise the texture is generated,
        uploaded, given nearest filtering and the wrap values of `Repeat`, and bound.
        For a decoded image, the `i32` sum `TEXTURE0 + unit'` must not overflow, and the
        image must have a first byte, which the upload takes the address of. */
    static method New(unit': i32, ty: TextureType, decoded: Result<Image>, gl: Driver) returns (r: Result<Texture>)
      requires decoded.Ok? ==> GL_TEXTURE0 + unit' < 0x8000_0000
      requires decoded.Ok? ==> |decoded.value.pixels| > 0
      modifies gl
      ensures decoded.Err? ==> r == Err(decoded.error) && gl.log == old(gl.log) && gl.issued == old(gl.issued)
      ensures decoded.Ok? ==>
        r.Ok? && fresh(r.value) && r.value.id == old(gl.issued) + 1 && gl.issued == r.value.id &&
        r.value.unit == unit' && r.value.bound &&
        gl.log == old(gl.log) + NewCalls(r.value.id, decoded.value, unit', ty)
    {
      if decoded.Err? {
        return Err(decoded.error);
      }
      var img := decoded.value;
      var texture := gl.Fresh();
      gl.Issue(GenTextures(texture));
      Generate(texture, img, unit', ty, gl);
      var instance := new Texture.Init(texture, unit');
      instance.Settings(Nearest, Nearest, Repeat, Repeat, gl);
      instance.Bind(gl);
      r := Ok(instance);
    }

    /** Selects unit `TEXTURE0 + unit`, binds `texture`, uploads `img` and builds its mipmaps. */
    static method Generate(texture: nat, img: Image, unit: i32, ty: TextureType, gl: Driver)
      requires GL_TEXTURE0 + unit < 0x8000_0000
      requires |img.pixels| > 0
      modifies gl
      ensures gl.log == old(gl.log) + GenerateCalls(texture, img, unit, ty)
      ensures gl.issued == old(gl.issued)
    {
      gl.Issue(ActiveTexture(AsU32(GL_TEXTURE0 + unit)));
      gl.Issue(BindTexture(GL_TEXTURE_2D, texture));
      var format := match ty
        case Rgb => GL_RGB
        case Rgba => GL_RGBA;
      gl.Issue(TexImage2D(GL_TEXTURE_2D, 0, GL_RGBA, AsI32(img.width), AsI32(img.height), 0, format,
                          GL_UNSIGNED_BYTE, img.pixels));
      gl.Issue(GenerateMipmap(GL_TEXTURE_2D));
    }

    /** Writes `unit` into the sampler uniform `sampler` of `shader`, leaving the shader
        out of use.  `answer` is the location the driver returns for `sampler`. */
    method Link(shader: Shader, sampler: string, answer: i32, gl: Driver)
      requires '\0' !in sampler
      modifies shader, gl
      ensures !shader.bound
      ensures gl.log == old(gl.log) + UseCall(old(shader.bound), shader.id)
                        + [GetUniformLocation(shader.id, sampler), UseProgram(0),
                           UseProgram(shader.id), Uniform1i(answer, unit), UseProgram(0)]
      ensures gl.issued == old(gl.issued)
    {
      var tex0 := Uniform.New(sampler, shader, answer, gl);
      shader.Bind(gl);
      tex0.Seti(unit, shader, gl);
      shader.Unbind(gl);
    }

    /** Binds, sets the two filters and the two wrap values, and unbinds: the flag ends
        false whatever it was. */
    method Settings(min: InterpolationType, mag: InterpolationType, wrapS: MapType, wrapT: MapType, gl: Driver)
      modifies this, gl
      ensures !bound
      ensures gl.log == old(gl.log) + SettingsCalls(old(bound), id, min, mag, wrapS, wrapT)
      ensures gl.issued == old(gl.issued)
    {
      Bind(gl);
      gl.Issue(TexParameteri(GL_TEXTURE_2D, GL_TEXTURE_MIN_FILTER, GlToEnumInter(min)));
      gl.Issue(TexParameteri(GL_TEXTURE_2D, GL_TEXTURE_MAG_FILTER, GlToEnumInter(mag)));
      gl.Issue(TexParameteri(GL_TEXTURE_2D, GL_TEXTURE_WRAP_S, GlToEnumMap(wrapS)));
      gl.Issue(TexParameteri(GL_TEXTURE_2D, GL_TEXTURE_WRAP_T, GlToEnumMap(wrapT)));
      Unbind(gl);
    }

    /** Binds the texture on unit 0 unless the flag says bound; idempotent. */
    method Bind(gl: Driver)
      modifies this, gl
      ensures bound
      ensures gl.log == old(gl.log) + BindCalls(old(bound), id)
      ensures gl.issued == old(gl.issued)
    {
      if !bound {
        gl.Issue(ActiveTexture(GL_TEXTURE0));
        gl.Issue(BindTexture(GL_TEXTURE_2D, id));
        bound := true;
      }
    }

    /** Unbinds the 2D target if the flag says bound; idempotent. */
    method Unbind(gl: Driver)
      modifies this, gl
      ensures !bound
      ensures gl.log == old(gl.log) + (if old(bound) then [BindTexture(GL_TEXTURE_2D, 0)] else [])
      ensures gl.issued == old(gl.issued)
    {
      if bound {
        gl.Issue(BindTexture(GL_TEXTURE_2D, 0));
        bound := false;
      }
    }

    /** Dropping the texture deletes it without unbinding. */
    method Drop(gl: Driver)
      modifies gl
      ensures gl.log == old(gl.log) + [DeleteTextures(id)]
      ensures gl.issued == old(gl.issued)
    {
      gl.Issue(DeleteTextures(id));
    }
  }
}
