/**
 * The resource helpers of `gl-utils.js`: `clear` and the creation of data buffers, the
 * index buffer and textures from a resource's state, each with the GL state it leaves behind.
 */
module ResourceStore {
  import opened Wrappers
  import opened JsObject
  import opened BeamTypes
  import opened MiscUtils
  import opened GlContext
  import opened GlStateModel

  // ---------------------------------------------------------------------------
  // clear

  /** The calls of `clear(gl, [r, g, b, a])` on a canvas of the given size. */
  function ClearTrace(width: int, height: int, color: Color): seq<Command> {
    [ Viewport(0, 0, width, height),
      ClearColor(color.red, color.green, color.blue, color.alpha),
      ClearDepth(1.0),
      Command.Clear(true, true),
      Enable(DepthTest),
      Enable(Blend),
      BlendFunc(SrcAlpha, OneMinusSrcAlpha) ]
  }

  /**
   * After `clear` the viewport covers the whole canvas, the clear colour is `color`, depth
   * testing and blending are on with source-alpha blending, and no other modelled state has
   * changed (the clear depth is not part of `GlState`).
   */
  lemma ClearPolicy(s: GlState, width: int, height: int, color: Color)
    ensures Run(s, ClearTrace(width, height, color))
         == s.(frame := FrameState(Rect(0, 0, width, height), color,
                                   s.frame.enabled + {DepthTest, Blend}, (SrcAlpha, OneMinusSrcAlpha)))
  {
    ClearSteps(s, ClearTrace(width, height, color), width, height, color);
  }

  lemma ClearSteps(s: GlState, t: seq<Command>, width: int, height: int, color: Color)
    requires t == ClearTrace(width, height, color)
    ensures Run(s, t)
         == s.(frame := FrameState(Rect(0, 0, width, height), color,
                                   s.frame.enabled + {DepthTest, Blend}, (SrcAlpha, OneMinusSrcAlpha)))
  {
    assert t == t[..4] + t[4..];
    RunAppend(s, t[..4], t[4..]);
    var s4 := Run(s, t[..4]);
    assert t[..4] == [t[0]] + [t[1], t[2], t[3]];
    RunCons(s, t[0], [t[1], t[2], t[3]]);
    RunThree(Apply(s, t[0]), t[1], t[2], t[3]);
    assert s4 == s.(frame := s.frame.(viewport := Rect(0, 0, width, height), clearColor := color));
    assert t[4..] == [t[4], t[5], t[6]];
    RunThree(s4, t[4], t[5], t[6]);
  }

  /** `clear(gl, color)`: resets the viewport to the canvas, clears colour and depth, and fixes the blend/depth policy. */
  method Clear(gl: GL, color: Color)
    modifies gl
    ensures gl.created == old(gl.created)
    ensures gl.log == old(gl.log) + ClearTrace(gl.canvasWidth, gl.canvasHeight, color)
  {
    gl.Issue(Viewport(0, 0, gl.canvasWidth, gl.canvasHeight));
    gl.Issue(ClearColor(color.red, color.green, color.blue, color.alpha));
    gl.Issue(ClearDepth(1.0));
    gl.Issue(Command.Clear(true, true));
    gl.Issue(Enable(DepthTest));
    gl.Issue(Enable(Blend));
    gl.Issue(BlendFunc(SrcAlpha, OneMinusSrcAlpha));
  }

  // ---------------------------------------------------------------------------
  // Handles created one per key

  /** `d` maps the `j`-th of `keys` to the `j`-th object created from `first` on. */
  ghost predicate NumberedFrom(d: Dict<Handle>, keys: seq<string>, first: nat) {
    && d.keys == keys
    && forall j :: 0 <= j < |keys| ==> d.props[keys[j]] == Handle(first + j)
  }

  /** Handles numbered from one counter are one per key: different keys never share a handle. */
  lemma NumberedHandlesDistinct(d: Dict<Handle>, keys: seq<string>, first: nat, k1: string, k2: string)
    requires NumberedFrom(d, keys, first)
    requires k1 in d.props && k2 in d.props && k1 != k2
    ensures d.props[k1] != d.props[k2]
  {
    var i :| 0 <= i < |keys| && keys[i] == k1;
    var j :| 0 <= j < |keys| && keys[j] == k2;
    assert d.props[k1] == Handle(first + i) && d.props[k2] == Handle(first + j);
  }

  /** Recording the next key's new handle extends the numbering by that key. */
  lemma NumberedStep(d: Dict<Handle>, keys: seq<string>, first: nat, i: nat)
    requires Distinct(keys) && i < |keys|
    requires NumberedFrom(d, keys[..i], first)
    ensures NumberedFrom(Put(d, keys[i], Handle(first + i)), keys[..i + 1], first)
  {
    forall j | 0 <= j < i ensures keys[j] != keys[i] { DistinctIndices(keys, j, i); }
    assert keys[..i + 1] == keys[..i] + [keys[i]];
  }

  // ---------------------------------------------------------------------------
  // initDataBuffers

  /** The calls for one key of a data-buffers state: a buffer, bound and filled with 32-bit floats for static drawing. */
  function BufferCommands(h: Handle, data: seq<real>): seq<Command> {
    [CreateBuffer(h), BindBuffer(ArrayBuffer, Some(h)), BufferData(ArrayBuffer, Float32Data(data), StaticDraw)]
  }

  /** The calls of `initDataBuffers` for the first `n` keys, the `j`-th key getting `Handle(first + j)`. */
  function DataBuffersTrace(state: Dict<seq<real>>, first: nat, n: nat): seq<Command>
    requires n <= |state.keys|
  {
    if n == 0 then []
    else DataBuffersTrace(state, first, n - 1)
           + BufferCommands(Handle(first + n - 1), state.props[state.keys[n - 1]])
  }

  lemma BufferCommandsEffect(s: GlState, h: Handle, data: seq<real>)
    ensures Run(s, BufferCommands(h, data))
         == s.(buffers := s.buffers.(arrayBuffer := Some(h),
                                     data := s.buffers.data[h := BufferUpload(Float32Data(data), StaticDraw)]))
  {
    RunThree(s, CreateBuffer(h), BindBuffer(ArrayBuffer, Some(h)), BufferData(ArrayBuffer, Float32Data(data), StaticDraw));
  }

  /** The calls for the next key, its handle and array, extend the trace by one key. */
  lemma DataBuffersStep(log0: seq<Command>, log: seq<Command>, state: Dict<seq<real>>, first: nat, i: nat,
                        h: Handle, data: seq<real>)
    requires i < |state.keys| && log == log0 + DataBuffersTrace(state, first, i)
    requires h == Handle(first + i) && data == state.props[state.keys[i]]
    ensures log + BufferCommands(h, data) == log0 + DataBuffersTrace(state, first, i + 1)
  {
  }

  /** The buffer of the `j`-th key holds that key's array as static 32-bit floats. */
  ghost predicate BufferUploaded(s: GlState, state: Dict<seq<real>>, first: nat, j: nat)
    requires j < |state.keys|
  {
    var h := Handle(first + j);
    h in s.buffers.data && s.buffers.data[h] == BufferUpload(Float32Data(state.props[state.keys[j]]), StaticDraw)
  }

  /**
   * After `initDataBuffers`, the buffer created for each key holds that key's array as
   * 32-bit floats with the static-draw hint, whatever the GL state was before.
   */
  lemma {:induction false} DataBuffersUploaded(s: GlState, state: Dict<seq<real>>, first: nat, n: nat)
    requires n <= |state.keys|
    ensures forall j :: 0 <= j < n ==> BufferUploaded(Run(s, DataBuffersTrace(state, first, n)), state, first, j)
  {
    if n > 0 {
      var before := DataBuffersTrace(state, first, n - 1);
      var h := Handle(first + n - 1);
      var data := state.props[state.keys[n - 1]];
      var mid := Run(s, before);
      DataBuffersUploaded(s, state, first, n - 1);
      RunAppend(s, before, BufferCommands(h, data));
      BufferCommandsEffect(mid, h, data);
      var s' := Run(s, DataBuffersTrace(state, first, n));
      assert s'.buffers.data == mid.buffers.data[h := BufferUpload(Float32Data(data), StaticDraw)];
      forall j | 0 <= j < n
        ensures BufferUploaded(s', state, first, j)
      {
        if j < n - 1 {
          assert BufferUploaded(mid, state, first, j);
        }
      }
    }
  }

  /**
   * `initDataBuffers(gl, state)`: one new buffer per key of `state`, in key order, each
   * filled with that key's array; the result maps every key to its buffer.
   */
  method InitDataBuffers(gl: GL, state: Dict<seq<real>>) returns (buffers: Dict<Handle>)
    modifies gl
    ensures gl.created == old(gl.created) + |state.keys|
    ensures NumberedFrom(buffers, state.keys, old(gl.created))
    ensures gl.log == old(gl.log) + DataBuffersTrace(state, old(gl.created), |state.keys|)
  {
    ghost var log0, first := gl.log, gl.created;
    buffers := Empty();
    var i := 0;
    while i < |state.keys|
      invariant 0 <= i <= |state.keys|
      invariant gl.created == first + i
      invariant gl.log == log0 + DataBuffersTrace(state, first, i)
      invariant NumberedFrom(buffers, state.keys[..i], first)
    {
      var key := state.keys[i];
      NumberedStep(buffers, state.keys, first, i);
      ghost var logBefore := gl.log;
      var data := state.props[key];
      var buffer := UploadBuffer(gl, data);
      DataBuffersStep(log0, logBefore, state, first, i, buffer, data);
      buffers := Put(buffers, key, buffer);
      i := i + 1;
    }
    assert state.keys[..i] == state.keys;
  }

  /** The body of `initDataBuffers` for one key: a new buffer, bound as the vertex source and filled with `data`. */
  method UploadBuffer(gl: GL, data: seq<real>) returns (buffer: Handle)
    modifies gl
    ensures buffer == Handle(old(gl.created)) && gl.created == old(gl.created) + 1
    ensures gl.log == old(gl.log) + BufferCommands(buffer, data)
  {
    buffer := gl.NewBuffer();
    gl.Issue(BindBuffer(ArrayBuffer, Some(buffer)));
    gl.Issue(BufferData(ArrayBuffer, Float32Data(data), StaticDraw));
  }

  // ---------------------------------------------------------------------------
  // initIndexBuffer

  /** The calls of `initIndexBuffer`: a buffer, bound as the element source and filled with 32-bit unsigned indices. */
  function IndexBufferTrace(h: Handle, indices: seq<int>): seq<Command> {
    [CreateBuffer(h), BindBuffer(ElementArrayBuffer, Some(h)),
     BufferData(ElementArrayBuffer, Uint32Data(indices), StaticDraw)]
  }

  /** After `initIndexBuffer` the new buffer is the element source and holds the indices as static 32-bit unsigned data. */
  lemma IndexBufferUploaded(s: GlState, h: Handle, indices: seq<int>)
    ensures Run(s, IndexBufferTrace(h, indices))
         == s.(buffers := s.buffers.(elementBuffer := Some(h),
                                     data := s.buffers.data[h := BufferUpload(Uint32Data(indices), StaticDraw)]))
  {
    RunThree(s, CreateBuffer(h), BindBuffer(ElementArrayBuffer, Some(h)),
             BufferData(ElementArrayBuffer, Uint32Data(indices), StaticDraw));
  }

  /** `initIndexBuffer(gl, { array })`: one new buffer holding the index array. */
  method InitIndexBuffer(gl: GL, indices: seq<int>) returns (buffer: Handle)
    modifies gl
    ensures buffer == Handle(old(gl.created)) && gl.created == old(gl.created) + 1
    ensures gl.log == old(gl.log) + IndexBufferTrace(buffer, indices)
  {
    buffer := gl.NewBuffer();
    gl.Issue(BindBuffer(ElementArrayBuffer, Some(buffer)));
    gl.Issue(BufferData(ElementArrayBuffer, Uint32Data(indices), StaticDraw));
  }

  // ---------------------------------------------------------------------------
  // initTextures

  /** The images that get mipmaps and may repeat: present, both sides powers of two, and not a video frame. */
  predicate MipmapEligible(image: Option<Image>) {
    && image.Some?
    && IsPowerOf2(image.value.width)
    && IsPowerOf2(image.value.height)
    && image.value.nodeName != "VIDEO"
  }

  /** The wrap mode a texture entry must end up with on both axes: REPEAT only for an eligible image that asks for it. */
  function ExpectedWrap(entry: TextureEntry): TexParamValue {
    if MipmapEligible(entry.image) && Truthy(entry.repeat) then WrapRepeat else WrapClampToEdge
  }

  function WrapCommands(v: TexParamValue): seq<Command> {
    [TexParameteri(Texture2D, WrapS, v), TexParameteri(Texture2D, WrapT, v)]
  }

  /** The filtering and wrapping calls after the upload of one texture. */
  function SamplingCommands(entry: TextureEntry): seq<Command> {
    if MipmapEligible(entry.image) then
      [GenerateMipmap(Texture2D)] + WrapCommands(if Truthy(entry.repeat) then WrapRepeat else WrapClampToEdge)
    else
      WrapCommands(WrapClampToEdge) + [TexParameteri(Texture2D, MinFilter, FilterLinear)]
  }

  /** Creating the texture and binding it on unit 0. */
  function TextureHead(h: Handle): seq<Command> {
    [CreateTexture(h), ActiveTexture(0), BindTexture(Texture2D, Some(h))]
  }

  /** The flip request and the upload of the image as RGBA bytes. */
  function UploadCommands(entry: TextureEntry): seq<Command> {
    (if Truthy(entry.flip) then [PixelStoreFlipY(true)] else [])
    + [TexImage2D(Texture2D, 0, Rgba, Rgba, UnsignedByte, entry.image)]
  }

  /** The calls for one key of a textures state, its texture being `h`. */
  function TextureCommands(h: Handle, entry: TextureEntry): seq<Command> {
    TextureHead(h) + UploadCommands(entry) + SamplingCommands(entry)
  }

  /**
   * The calls for one texture generate mipmaps exactly for an eligible image, set REPEAT
   * exactly when the expected wrap mode is REPEAT, set LINEAR minification exactly for an
   * ineligible image, and request flipped rows exactly when `flip` is truthy, never unflipped.
   */
  lemma TextureCommandsPolicy(h: Handle, entry: TextureEntry)
    ensures var r := TextureCommands(h, entry);
      && (GenerateMipmap(Texture2D) in r <==> MipmapEligible(entry.image))
      && (TexParameteri(Texture2D, WrapS, WrapRepeat) in r <==> ExpectedWrap(entry) == WrapRepeat)
      && (TexParameteri(Texture2D, WrapT, WrapRepeat) in r <==> ExpectedWrap(entry) == WrapRepeat)
      && (TexParameteri(Texture2D, MinFilter, FilterLinear) in r <==> !MipmapEligible(entry.image))
      && (PixelStoreFlipY(true) in r <==> Truthy(entry.flip))
      && PixelStoreFlipY(false) !in r
  {
    var r := TextureCommands(h, entry);
    assert forall c :: c in r <==> c in TextureHead(h) || c in UploadCommands(entry) || c in SamplingCommands(entry);
  }

  /** The calls of `initTextures` for the first `n` keys, the `j`-th key getting `Handle(first + j)`. */
  function TexturesTrace(state: Dict<TextureEntry>, first: nat, n: nat): seq<Command>
    requires n <= |state.keys|
  {
    if n == 0 then []
    else TexturesTrace(state, first, n - 1)
           + TextureCommands(Handle(first + n - 1), state.props[state.keys[n - 1]])
  }

  /** The texture parameters of `h` after its sampling calls. */
  function SampledParams(params: map<(Handle, TexParam), TexParamValue>, h: Handle, entry: TextureEntry)
    : map<(Handle, TexParam), TexParamValue>
  {
    var wrapped := params[(h, WrapS) := ExpectedWrap(entry)][(h, WrapT) := ExpectedWrap(entry)];
    if MipmapEligible(entry.image) then wrapped else wrapped[(h, MinFilter) := FilterLinear]
  }

  /** The texture state after the calls for one texture: bound on unit 0, uploaded, filtered and wrapped by the policy. */
  function AfterTexture(t: TextureState, h: Handle, entry: TextureEntry): TextureState {
    var flipY := t.flipY || Truthy(entry.flip);
    t.(activeUnit := 0,
       bound2D := t.bound2D[0 := Some(h)],
       flipY := flipY,
       images := t.images[h := TextureUpload(entry.image, flipY)],
       mipmapped := if MipmapEligible(entry.image) then t.mipmapped + {h} else t.mipmapped,
       params := SampledParams(t.params, h, entry))
  }

  lemma SamplingEffect(s: GlState, h: Handle, entry: TextureEntry)
    requires BoundTexture(s.textures, Texture2D) == Some(h)
    ensures var t := Run(s, SamplingCommands(entry)).textures;
      && t == s.textures.(mipmapped := if MipmapEligible(entry.image) then s.textures.mipmapped + {h} else s.textures.mipmapped,
                          params := SampledParams(s.textures.params, h, entry))
    ensures Run(s, SamplingCommands(entry)) == s.(textures := Run(s, SamplingCommands(entry)).textures)
  {
    var sampling := SamplingCommands(entry);
    RunThree(s, sampling[0], sampling[1], sampling[2]);
    assert sampling == [sampling[0], sampling[1], sampling[2]];
  }

  lemma TextureCommandsEffect(s: GlState, h: Handle, entry: TextureEntry)
    ensures Run(s, TextureCommands(h, entry)) == s.(textures := AfterTexture(s.textures, h, entry))
  {
    var head := TextureHead(h);
    var upload := UploadCommands(entry);
    var sampling := SamplingCommands(entry);
    RunThree(s, head[0], head[1], head[2]);
    var s1 := Run(s, head);
    assert s1 == s.(textures := s.textures.(activeUnit := 0, bound2D := s.textures.bound2D[0 := Some(h)]));
    var s2 := Run(s1, upload);
    assert BoundTexture(s1.textures, Texture2D) == Some(h);
    var flipY := s.textures.flipY || Truthy(entry.flip);
    if Truthy(entry.flip) {
      RunTwo(s1, upload[0], upload[1]);
      assert upload == [upload[0], upload[1]];
    } else {
      RunOne(s1, upload[0]);
      assert upload == [upload[0]];
    }
    assert s2 == s1.(textures := s1.textures.(flipY := flipY, images := s.textures.images[h := TextureUpload(entry.image, flipY)]));
    SamplingEffect(s2, h, entry);
    RunAppend(s, head, upload);
    RunAppend(s, head + upload, sampling);
  }

  /** The calls for one texture leave every other texture's upload, parameters and mipmaps alone. */
  lemma AfterTextureKeepsOthers(t: TextureState, h: Handle, entry: TextureEntry, other: Handle)
    requires other != h
    ensures var a := AfterTexture(t, h, entry);
      && (forall p :: (other, p) in t.params ==> (other, p) in a.params && a.params[(other, p)] == t.params[(other, p)])
      && (other in a.mipmapped <==> other in t.mipmapped)
      && (other in t.images ==> other in a.images && a.images[other] == t.images[other])
  {
  }

  /** Some entry among the first `n` asks for flipped rows. */
  predicate FlipRequested(state: Dict<TextureEntry>, n: nat)
    requires n <= |state.keys|
  {
    exists i :: 0 <= i < n && Truthy(state.props[state.keys[i]].flip)
  }

  /** What the texture policy promises for the texture `h` made from `entry`. */
  ghost predicate TextureConfigured(before: TextureState, after: TextureState, h: Handle, entry: TextureEntry) {
    && (h, WrapS) in after.params && after.params[(h, WrapS)] == ExpectedWrap(entry)
    && (h, WrapT) in after.params && after.params[(h, WrapT)] == ExpectedWrap(entry)
    && (!MipmapEligible(entry.image) ==>
          (h, MinFilter) in after.params && after.params[(h, MinFilter)] == FilterLinear)
    && (h in after.mipmapped <==> h in before.mipmapped || MipmapEligible(entry.image))
  }

  /** The `j`-th texture is configured by the policy and was uploaded flipped as the flip flag then stood. */
  ghost predicate TextureDone(before: TextureState, after: TextureState, state: Dict<TextureEntry>, first: nat, j: nat)
    requires j < |state.keys|
  {
    var entry := state.props[state.keys[j]];
    var h := Handle(first + j);
    && TextureConfigured(before, after, h, entry)
    && h in after.images
    && after.images[h] == TextureUpload(entry.image, before.flipY || FlipRequested(state, j + 1))
  }

  /** Whether an entry among the first `n` asks for flipped rows is decided by the earlier ones and the `n`-th. */
  lemma FlipRequestedStep(state: Dict<TextureEntry>, n: nat)
    requires 0 < n <= |state.keys|
    ensures FlipRequested(state, n) <==> FlipRequested(state, n - 1) || Truthy(state.props[state.keys[n - 1]].flip)
  {
    if FlipRequested(state, n) {
      var i :| 0 <= i < n && Truthy(state.props[state.keys[i]].flip);
      if i < n - 1 { assert FlipRequested(state, n - 1); }
    }
    if FlipRequested(state, n - 1) {
      var i :| 0 <= i < n - 1 && Truthy(state.props[state.keys[i]].flip);
      assert 0 <= i < n;
    }
  }

  /** What the first `n` textures satisfy once their calls have run, starting from the texture state `t0`. */
  ghost predicate TexturesReady(t0: TextureState, t: TextureState, state: Dict<TextureEntry>, first: nat, n: nat)
    requires n <= |state.keys|
  {
    && t.flipY == (t0.flipY || FlipRequested(state, n))
    && t0.mipmapped <= t.mipmapped
    && (forall h :: h in t.mipmapped ==> h in t0.mipmapped || first <= h.id < first + n)
    && forall j :: 0 <= j < n ==> TextureDone(t0, t, state, first, j)
  }

  /** The calls for the `n`-th texture keep the earlier textures ready and make the new one ready. */
  lemma TexturesReadyStep(t0: TextureState, t: TextureState, state: Dict<TextureEntry>, first: nat, n: nat)
    requires 0 < n <= |state.keys|
    requires TexturesReady(t0, t, state, first, n - 1)
    ensures TexturesReady(t0, AfterTexture(t, Handle(first + n - 1), state.props[state.keys[n - 1]]), state, first, n)
  {
    var h := Handle(first + n - 1);
    var entry := state.props[state.keys[n - 1]];
    var t' := AfterTexture(t, h, entry);
    FlipRequestedStep(state, n);
    assert h !in t.mipmapped <== h !in t0.mipmapped;
    forall j | 0 <= j < n
      ensures TextureDone(t0, t', state, first, j)
    {
      if j < n - 1 {
        assert TextureDone(t0, t, state, first, j);
        AfterTextureKeepsOthers(t, h, entry, Handle(first + j));
      }
    }
  }

  /** Running the calls of `n` keys applies the `n`-th key's texture calls to the state reached after `n - 1`. */
  lemma TexturesRunStep(s: GlState, state: Dict<TextureEntry>, first: nat, n: nat)
    requires 0 < n <= |state.keys|
    ensures var mid := Run(s, TexturesTrace(state, first, n - 1));
      Run(s, TexturesTrace(state, first, n))
        == mid.(textures := AfterTexture(mid.textures, Handle(first + n - 1), state.props[state.keys[n - 1]]))
  {
    var h := Handle(first + n - 1);
    var entry := state.props[state.keys[n - 1]];
    RunAppend(s, TexturesTrace(state, first, n - 1), TextureCommands(h, entry));
    TextureCommandsEffect(Run(s, TexturesTrace(state, first, n - 1)), h, entry);
  }

  /**
   * After `initTextures`, the texture of every key has wrap mode REPEAT on both axes exactly
   * when its image is present, power-of-two on both sides, not a video, and `repeat` is set,
   * and CLAMP_TO_EDGE otherwise; mipmaps are generated for eligible images only, and an
   * ineligible image gets LINEAR minification. Each image is uploaded flipped exactly when the
   * context was already flipping or its own entry or an earlier one set `flip`: the flip is
   * switched on and never off again. Nothing but the texture state changes.
   */
  lemma {:induction false} TexturesConfigured(s: GlState, state: Dict<TextureEntry>, first: nat, n: nat)
    requires n <= |state.keys|
    ensures var s' := Run(s, TexturesTrace(state, first, n));
      && s' == s.(textures := s'.textures)
      && TexturesReady(s.textures, s'.textures, state, first, n)
  {
    if n > 0 {
      var mid := Run(s, TexturesTrace(state, first, n - 1));
      TexturesConfigured(s, state, first, n - 1);
      TexturesRunStep(s, state, first, n);
      var t := AfterTexture(mid.textures, Handle(first + n - 1), state.props[state.keys[n - 1]]);
      assert mid.(textures := t) == s.(textures := t);
      TexturesReadyStep(s.textures, mid.textures, state, first, n);
    } else {
      assert !FlipRequested(state, 0);
    }
  }

  /**
   * `initTextures(gl, state)`: one new texture per key of `state`, in key order, bound on
   * unit 0, uploaded as RGBA bytes (flipping rows when `flip` is set), then filtered and
   * wrapped by the power-of-two policy; the result maps every key to its texture.
   */
  method InitTextures(gl: GL, state: Dict<TextureEntry>) returns (textures: Dict<Handle>)
    modifies gl
    ensures gl.created == old(gl.created) + |state.keys|
    ensures NumberedFrom(textures, state.keys, old(gl.created))
    ensures gl.log == old(gl.log) + TexturesTrace(state, old(gl.created), |state.keys|)
  {
    ghost var log0, first := gl.log, gl.created;
    textures := Empty();
    var i := 0;
    while i < |state.keys|
      invariant 0 <= i <= |state.keys|
      invariant gl.created == first + i
      invariant gl.log == log0 + TexturesTrace(state, first, i)
      invariant NumberedFrom(textures, state.keys[..i], first)
    {
      var key := state.keys[i];
      NumberedStep(textures, state.keys, first, i);
      ghost var logBefore := gl.log;
      var entry := state.props[key];
      var texture := UploadTexture(gl, entry);
      TexturesStep(log0, logBefore, state, first, i, texture, entry);
      textures := Put(textures, key, texture);
      i := i + 1;
    }
    assert state.keys[..i] == state.keys;
  }

  /** The calls for the next key, its handle and entry, extend the trace by one key. */
  lemma TexturesStep(log0: seq<Command>, log: seq<Command>, state: Dict<TextureEntry>, first: nat, i: nat,
                     h: Handle, entry: TextureEntry)
    requires i < |state.keys| && log == log0 + TexturesTrace(state, first, i)
    requires h == Handle(first + i) && entry == state.props[state.keys[i]]
    ensures log + TextureCommands(h, entry) == log0 + TexturesTrace(state, first, i + 1)
  {
  }

  /**
   * The body of `initTextures` for one key: a new texture bound on unit 0, its image uploaded
   * as RGBA bytes (rows flipped first when `flip` is set), then filtered and wrapped by the
   * power-of-two policy.
   */
  method UploadTexture(gl: GL, entry: TextureEntry) returns (texture: Handle)
    modifies gl
    ensures texture == Handle(old(gl.created)) && gl.created == old(gl.created) + 1
    ensures gl.log == old(gl.log) + TextureCommands(texture, entry)
  {
    ghost var logBefore := gl.log;
    texture := gl.NewTexture();
    gl.Issue(ActiveTexture(0));
    gl.Issue(BindTexture(Texture2D, Some(texture)));
    assert gl.log == logBefore + TextureHead(texture);
    ghost var logBound := gl.log;
    if Truthy(entry.flip) {
      gl.Issue(PixelStoreFlipY(true));
    }
    gl.Issue(TexImage2D(Texture2D, 0, Rgba, Rgba, UnsignedByte, entry.image));
    assert gl.log == logBound + UploadCommands(entry);
    SetSampling(gl, entry);
    assert gl.log == logBefore + (TextureHead(texture) + UploadCommands(entry) + SamplingCommands(entry));
  }

  /** The filtering and wrapping part of `initTextures` for the bound texture: mipmaps and a choice of wrap for a power-of-two image, clamping and linear minification otherwise. */
  method SetSampling(gl: GL, entry: TextureEntry)
    modifies gl
    ensures gl.created == old(gl.created)
    ensures gl.log == old(gl.log) + SamplingCommands(entry)
  {
    ghost var logUploaded := gl.log;
    var image := entry.image;
    if MipmapEligible(image) {
      gl.Issue(GenerateMipmap(Texture2D));
      if !Truthy(entry.repeat) {
        gl.Issue(TexParameteri(Texture2D, WrapS, WrapClampToEdge));
        gl.Issue(TexParameteri(Texture2D, WrapT, WrapClampToEdge));
      } else {
        gl.Issue(TexParameteri(Texture2D, WrapS, WrapRepeat));
        gl.Issue(TexParameteri(Texture2D, WrapT, WrapRepeat));
      }
      assert gl.log == logUploaded + SamplingCommands(entry);
    } else {
      gl.Issue(TexParameteri(Texture2D, WrapS, WrapClampToEdge));
      gl.Issue(TexParameteri(Texture2D, WrapT, WrapClampToEdge));
      gl.Issue(TexParameteri(Texture2D, MinFilter, FilterLinear));
      assert gl.log == logUploaded + SamplingCommands(entry);
    }
  }
}
