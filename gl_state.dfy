/**
 * What a sequence of calls does to the parts of the WebGL state the helpers rely on:
 * which program, buffers and textures are bound, what was uploaded into each object,
 * the texture parameters, the vertex attribute pointers, the viewport and the fixed
 * blend/depth policy. A call that targets an unbound object changes nothing, as GL
 * raises an error for it instead. Uniform values and the clear depth are not tracked:
 * `uniform*` and `clearDepth` calls leave the state as it was.
 */
module GlStateModel {
  import opened Wrappers
  import opened BeamTypes
  import opened GlContext

  datatype BufferUpload = BufferUpload(data: Payload, usage: Usage)
  /** The image a texture received, and whether rows were flipped on upload. */
  datatype TextureUpload = TextureUpload(image: Option<Image>, flipped: bool)
  /** The buffer an attribute reads from and its component count. */
  datatype AttribPointer = AttribPointer(buffer: Option<Handle>, size: int)
  datatype Rect = Rect(x: int, y: int, width: int, height: int)
  datatype Color = Color(red: real, green: real, blue: real, alpha: real)

  /** Buffer bindings and the contents of every buffer. */
  datatype BufferState = BufferState(
    arrayBuffer: Option<Handle>,
    elementBuffer: Option<Handle>,
    data: map<Handle, BufferUpload>)

  /** Texture units, their bindings, the unpack flip flag, and what each texture holds. */
  datatype TextureState = TextureState(
    activeUnit: int,
    bound2D: map<int, Option<Handle>>,
    boundCube: map<int, Option<Handle>>,
    flipY: bool,
    images: map<Handle, TextureUpload>,
    mipmapped: set<Handle>,
    params: map<(Handle, TexParam), TexParamValue>)

  /** Vertex attribute pointers by location, and the enabled locations. */
  datatype AttribState = AttribState(
    pointers: map<int, AttribPointer>,
    enabled: set<int>)

  /** The destination settings `clear` fixes. */
  datatype FrameState = FrameState(
    viewport: Rect,
    clearColor: Color,
    enabled: set<Capability>,
    blendFunc: (BlendFactor, BlendFactor))

  datatype GlState = GlState(
    program: Option<Handle>,
    buffers: BufferState,
    textures: TextureState,
    attribs: AttribState,
    frame: FrameState)

  /** The texture bound to `target` on the active unit. */
  function BoundTexture(t: TextureState, target: TextureTarget): Option<Handle> {
    var units := if target == Texture2D then t.bound2D else t.boundCube;
    if t.activeUnit in units then units[t.activeUnit] else None
  }

  /** The effect of one call on the buffer state. */
  function ApplyBuffers(b: BufferState, c: Command): BufferState
    requires c.BindBuffer? || c.BufferData?
  {
    match c
    case BindBuffer(t, h) =>
      if t == ArrayBuffer then b.(arrayBuffer := h) else b.(elementBuffer := h)
    case BufferData(t, data, usage) =>
      var h := if t == ArrayBuffer then b.arrayBuffer else b.elementBuffer;
      if h.Some? then b.(data := b.data[h.value := BufferUpload(data, usage)]) else b
  }

  /** The effect of one call on the texture state. */
  function ApplyTextures(t: TextureState, c: Command): TextureState
    requires c.ActiveTexture? || c.BindTexture? || c.PixelStoreFlipY? || c.TexImage2D?
          || c.GenerateMipmap? || c.TexParameteri?
  {
    match c
    case ActiveTexture(u) => t.(activeUnit := u)
    case BindTexture(target, tex) =>
      if target == Texture2D then t.(bound2D := t.bound2D[t.activeUnit := tex])
      else t.(boundCube := t.boundCube[t.activeUnit := tex])
    case PixelStoreFlipY(f) => t.(flipY := f)
    case TexImage2D(target, _, _, _, _, image) =>
      var h := BoundTexture(t, target);
      if h.Some? then t.(images := t.images[h.value := TextureUpload(image, t.flipY)]) else t
    case GenerateMipmap(target) =>
      var h := BoundTexture(t, target);
      if h.Some? then t.(mipmapped := t.mipmapped + {h.value}) else t
    case TexParameteri(target, p, v) =>
      var h := BoundTexture(t, target);
      if h.Some? then t.(params := t.params[(h.value, p) := v]) else t
  }

  /** The effect of one call on the frame settings. */
  function ApplyFrame(f: FrameState, c: Command): FrameState
    requires c.Viewport? || c.ClearColor? || c.Enable? || c.BlendFunc?
  {
    match c
    case Viewport(x, y, w, h) => f.(viewport := Rect(x, y, w, h))
    case ClearColor(r, g, b, a) => f.(clearColor := Color(r, g, b, a))
    case Enable(cap) => f.(enabled := f.enabled + {cap})
    case BlendFunc(sf, df) => f.(blendFunc := (sf, df))
  }

  /** The effect of one call. */
  function Apply(s: GlState, c: Command): GlState {
    if c.UseProgram? then s.(program := c.used)
    else if c.BindBuffer? || c.BufferData? then s.(buffers := ApplyBuffers(s.buffers, c))
    else if c.ActiveTexture? || c.BindTexture? || c.PixelStoreFlipY? || c.TexImage2D?
         || c.GenerateMipmap? || c.TexParameteri? then s.(textures := ApplyTextures(s.textures, c))
    else if c.VertexAttribPointer? then
      s.(attribs := s.attribs.(pointers := s.attribs.pointers[c.index := AttribPointer(s.buffers.arrayBuffer, c.size)]))
    else if c.EnableVertexAttribArray? then
      s.(attribs := s.attribs.(enabled := s.attribs.enabled + {c.index}))
    else if c.Viewport? || c.ClearColor? || c.Enable? || c.BlendFunc? then s.(frame := ApplyFrame(s.frame, c))
    else s
  }

  /** The effect of a sequence of calls, made in order. */
  function Run(s: GlState, cs: seq<Command>): GlState
    decreases |cs|
  {
    if cs == [] then s else Run(Apply(s, cs[0]), cs[1..])
  }

  /** Running two sequences one after the other is running their concatenation. */
  lemma {:induction false} RunAppend(s: GlState, a: seq<Command>, b: seq<Command>)
    ensures Run(s, a + b) == Run(Run(s, a), b)
    decreases |a|
  {
    if a != [] {
      assert (a + b)[0] == a[0] && (a + b)[1..] == a[1..] + b;
      RunAppend(Apply(s, a[0]), a[1..], b);
    } else {
      assert a + b == b;
    }
  }

  lemma RunCons(s: GlState, c: Command, rest: seq<Command>)
    ensures Run(s, [c] + rest) == Run(Apply(s, c), rest)
  {
    assert ([c] + rest)[1..] == rest;
  }

  /** Running a single call is applying it. */
  lemma RunOne(s: GlState, c: Command)
    ensures Run(s, [c]) == Apply(s, c)
  {
    assert [c][1..] == [];
  }

  lemma RunTwo(s: GlState, c1: Command, c2: Command)
    ensures Run(s, [c1, c2]) == Apply(Apply(s, c1), c2)
  {
    assert [c1, c2][1..] == [c2];
    RunOne(Apply(s, c1), c2);
  }

  lemma RunThree(s: GlState, c1: Command, c2: Command, c3: Command)
    ensures Run(s, [c1, c2, c3]) == Apply(Apply(Apply(s, c1), c2), c3)
  {
    assert [c1, c2, c3][1..] == [c2, c3];
    RunTwo(Apply(s, c1), c2, c3);
  }
}
