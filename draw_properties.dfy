/**
 * What a call of `draw` achieves: the order of its calls, the single draw at the end, how
 * each uniform's value is chosen and uploaded, which uniform keys throw, the texture unit
 * each texture slot gets, and the context state in force when the elements are drawn.
 */
module DrawProperties {
  import opened Wrappers
  import opened JsObject
  import opened BeamTypes
  import opened MiscUtils
  import opened GlContext
  import opened GlStateModel
  import opened ShaderCompiler
  import opened Draw

  /** The calls that upload a uniform value. */
  predicate IsUniformCall(c: Command) {
    c.Uniform1i? || c.Uniform1iv? || c.Uniform1f? || c.Uniform1fv? || c.Uniform2fv? || c.Uniform3fv?
    || c.Uniform4fv? || c.UniformMatrix2fv? || c.UniformMatrix3fv? || c.UniformMatrix4fv?
  }

  /** The calls the attribute keys of `draw` make. */
  predicate AttribStage(c: Command) {
    (c.BindBuffer? && c.bufferTarget == ArrayBuffer) || c.VertexAttribPointer? || c.EnableVertexAttribArray?
  }

  /** The calls the uniform keys of `draw` make. */
  predicate UniformStage(c: Command) {
    IsUniformCall(c) || c.ActiveTexture? || c.BindTexture?
  }

  /** The `j`-th uniform slot of `refs`, in key order. */
  function SlotAt(refs: ShaderRefs, j: nat): UniformRef
    requires j < |refs.uniforms.keys|
  {
    refs.uniforms.props[refs.uniforms.keys[j]]
  }

  // ---------------------------------------------------------------------------
  // One uniform key

  /**
   * The setter table: `int` and `float` slots take one scalar for a falsy value, a number or
   * a string, and an array otherwise; vector slots take as many components as the type has;
   * matrices are never transposed; the index type has no setter. Every setter uploads `val`
   * at `location`.
   */
  lemma SetterShape(t: SchemaType, location: Option<UniformLocation>, val: JsValue)
    requires !IsTexture(t)
    ensures var r := ValueCall(t, location, val);
      && (r.None? <==> t == Index)
      && (r.Some? ==> IsUniformCall(r.value) && r.value.location == location && r.value.value == val)
      && (t == Int ==> (r.value.Uniform1i? <==> ScalarShaped(val)) && (r.value.Uniform1iv? <==> !ScalarShaped(val)))
      && (t == Float ==> (r.value.Uniform1f? <==> ScalarShaped(val)) && (r.value.Uniform1fv? <==> !ScalarShaped(val)))
      && (r.Some? ==> && (r.value.Uniform4fv? <==> NumComponents(t) == 4 && t != Mat4)
                      && (r.value.Uniform3fv? <==> NumComponents(t) == 3 && t != Mat3)
                      && (r.value.Uniform2fv? <==> NumComponents(t) == 2 && t != Mat2))
      && (r.Some? && (r.value.UniformMatrix4fv? || r.value.UniformMatrix3fv? || r.value.UniformMatrix2fv?) ==>
            !r.value.transpose)
      && (r.Some? ==> && (r.value.UniformMatrix4fv? <==> t == Mat4)
                      && (r.value.UniformMatrix3fv? <==> t == Mat3)
                      && (r.value.UniformMatrix2fv? <==> t == Mat2))
  {
  }

  /**
   * A value slot whose type has a setter: an explicit value wins, else the schema default is
   * used, else (no schema slot) the key throws; a slot left `undefined` uploads nothing, and
   * otherwise exactly one call uploads the chosen value at the slot's location. The texture
   * unit counter does not move.
   */
  lemma UniformResolution(schema: Schema, uniforms: Dict<JsValue>, textures: Dict<Handle>,
                          key: string, slot: UniformRef, unit: int)
    requires !IsTexture(slot.slotType) && slot.slotType != Index
    ensures var st := SlotStep(schema, uniforms, textures, key, slot, unit);
      var explicit := Lookup(uniforms, key);
      && st.unit == unit
      && |st.cmds| <= 1
      && (st.ok <==> explicit != Undefined || key in schema.uniforms.props)
      && (explicit != Undefined ==> |st.cmds| == 1 && st.cmds[0].value == explicit)
      && (explicit == Undefined && key in schema.uniforms.props ==>
            var default := schema.uniforms.props[key].defaultValue;
            (|st.cmds| == 0 <==> default == Undefined) && (|st.cmds| == 1 ==> st.cmds[0].value == default))
      && (|st.cmds| == 1 ==> IsUniformCall(st.cmds[0]) && st.cmds[0].location == slot.location)
  {
    var explicit := Lookup(uniforms, key);
    var padded := PadDefault(schema, key, explicit);
    if padded.Some? && padded.value != Undefined {
      SetterShape(slot.slotType, slot.location, padded.value);
    }
  }

  /**
   * A texture slot moves to the next unit, points the sampler at it, activates it and binds
   * the slot's texture there (a cube slot binds `null`); it never throws.
   */
  lemma TextureSlot(schema: Schema, uniforms: Dict<JsValue>, textures: Dict<Handle>,
                    key: string, slot: UniformRef, unit: int)
    requires IsTexture(slot.slotType)
    ensures var st := SlotStep(schema, uniforms, textures, key, slot, unit);
      && st.ok && st.unit == unit + 1 && |st.cmds| == 3
      && st.cmds[0].Uniform1i? && st.cmds[0].location == slot.location && st.cmds[0].value == Num((unit + 1) as real)
      && st.cmds[1] == ActiveTexture(unit + 1)
      && st.cmds[2].BindTexture?
      && (st.cmds[2].textureTarget == Texture2D <==> slot.slotType == Tex2D)
      && st.cmds[2].texture == (if slot.slotType == Tex2D then Get(textures, key) else None)
  {
  }

  // ---------------------------------------------------------------------------
  // Which keys throw

  /** The uniform key `key` with slot type `t` throws: its value is missing with no schema slot, or it has a value and no setter. */
  predicate SlotError(schema: Schema, uniforms: Dict<JsValue>, key: string, t: SchemaType) {
    !IsTexture(t) &&
    if Lookup(uniforms, key) != Undefined then t == Index
    else key !in schema.uniforms.props || (t == Index && schema.uniforms.props[key].defaultValue != Undefined)
  }

  lemma SlotStepOk(schema: Schema, uniforms: Dict<JsValue>, textures: Dict<Handle>, key: string, slot: UniformRef, unit: int)
    ensures SlotStep(schema, uniforms, textures, key, slot, unit).ok <==> !SlotError(schema, uniforms, key, slot.slotType)
  {
  }

  /** The pass over the first `n` keys completes exactly when none of those keys throws. */
  lemma {:induction false} UniformPassOk(schema: Schema, refs: ShaderRefs, uniforms: Dict<JsValue>, textures: Dict<Handle>, n: nat)
    requires n <= |refs.uniforms.keys|
    ensures UniformPass(schema, refs, uniforms, textures, n).ok
      <==> forall j :: 0 <= j < n ==> !SlotError(schema, uniforms, refs.uniforms.keys[j], SlotAt(refs, j).slotType)
  {
    if n > 0 {
      UniformPassOk(schema, refs, uniforms, textures, n - 1);
      var p := UniformPass(schema, refs, uniforms, textures, n - 1);
      var key := refs.uniforms.keys[n - 1];
      SlotStepOk(schema, uniforms, textures, key, SlotAt(refs, n - 1), p.unit);
    }
  }

  // ---------------------------------------------------------------------------
  // Texture units

  /** The number of texture slots among the first `n` uniform keys. */
  function TextureCount(refs: ShaderRefs, n: nat): nat
    requires n <= |refs.uniforms.keys|
  {
    if n == 0 then 0
    else TextureCount(refs, n - 1) + (if IsTexture(SlotAt(refs, n - 1).slotType) then 1 else 0)
  }

  /** Texture units count texture slots only, from 0: after a completed pass the last unit used is one less than their number. */
  lemma {:induction false} TextureUnits(schema: Schema, refs: ShaderRefs, uniforms: Dict<JsValue>, textures: Dict<Handle>, n: nat)
    requires n <= |refs.uniforms.keys|
    requires UniformPass(schema, refs, uniforms, textures, n).ok
    ensures UniformPass(schema, refs, uniforms, textures, n).unit == TextureCount(refs, n) - 1
  {
    if n > 0 {
      TextureUnits(schema, refs, uniforms, textures, n - 1);
    }
  }

  /** An earlier texture slot has a smaller unit than every later slot. */
  lemma {:induction false} TextureCountGrows(refs: ShaderRefs, j: nat, m: nat)
    requires j < m <= |refs.uniforms.keys|
    requires IsTexture(SlotAt(refs, j).slotType)
    ensures TextureCount(refs, j) < TextureCount(refs, m)
  {
    if j < m - 1 {
      TextureCountGrows(refs, j, m - 1);
    }
  }

  /** Texture slot `j` has its texture bound on its unit: `textures[key]` for a 2D slot, `null` for a cube slot. */
  ghost predicate TextureBoundAt(t: TextureState, refs: ShaderRefs, textures: Dict<Handle>, j: nat)
    requires j < |refs.uniforms.keys|
  {
    var u := TextureCount(refs, j);
    if SlotAt(refs, j).slotType == Tex2D then
      u in t.bound2D && t.bound2D[u] == Get(textures, refs.uniforms.keys[j])
    else
      u in t.boundCube && t.boundCube[u] == None
  }

  ghost predicate UnitsBound(t: TextureState, refs: ShaderRefs, textures: Dict<Handle>, n: nat)
    requires n <= |refs.uniforms.keys|
  {
    forall j :: 0 <= j < n && IsTexture(SlotAt(refs, j).slotType) ==> TextureBoundAt(t, refs, textures, j)
  }

  /** Activating `unit` and binding `texture` to `target` there. */
  function BindUnit(t: TextureState, target: TextureTarget, unit: int, texture: Option<Handle>): TextureState {
    if target == Texture2D then t.(activeUnit := unit, bound2D := t.bound2D[unit := texture])
    else t.(activeUnit := unit, boundCube := t.boundCube[unit := texture])
  }

  /** The effect of one completed uniform key: a texture slot binds on its unit; every other call leaves the state as it is. */
  lemma SlotStepEffect(s: GlState, schema: Schema, uniforms: Dict<JsValue>, textures: Dict<Handle>,
                       key: string, slot: UniformRef, unit: int)
    requires SlotStep(schema, uniforms, textures, key, slot, unit).ok
    ensures var st := SlotStep(schema, uniforms, textures, key, slot, unit);
      Run(s, st.cmds) == if !IsTexture(slot.slotType) then s
        else if slot.slotType == Tex2D then s.(textures := BindUnit(s.textures, Texture2D, unit + 1, Get(textures, key)))
        else s.(textures := BindUnit(s.textures, TextureCubeMap, unit + 1, None))
  {
    if IsTexture(slot.slotType) {
      TextureSlotEffect(s, slot.slotType, slot.location, unit + 1, Get(textures, key));
    } else {
      var st := SlotStep(schema, uniforms, textures, key, slot, unit);
      if |st.cmds| == 1 {
        UniformResolution(schema, uniforms, textures, key, slot, unit);
        UniformCallEffect(s, st.cmds);
      }
    }
  }

  lemma TextureSlotEffect(s: GlState, t: SchemaType, location: Option<UniformLocation>, unit: int, texture: Option<Handle>)
    ensures Run(s, TextureCalls(t, location, unit, texture))
      == if t == Tex2D then s.(textures := BindUnit(s.textures, Texture2D, unit, texture))
         else s.(textures := BindUnit(s.textures, TextureCubeMap, unit, None))
  {
    var cs := TextureCalls(t, location, unit, texture);
    RunThree(s, cs[0], cs[1], cs[2]);
    assert cs == [cs[0], cs[1], cs[2]];
  }

  /** Uploading a uniform value does not change the modelled state. */
  lemma UniformCallEffect(s: GlState, cs: seq<Command>)
    requires |cs| == 1 && IsUniformCall(cs[0])
    ensures Run(s, cs) == s
  {
    RunOne(s, cs[0]);
    assert cs == [cs[0]];
  }

  lemma UnitsBoundStep(t: TextureState, refs: ShaderRefs, textures: Dict<Handle>, n: nat)
    requires 0 < n <= |refs.uniforms.keys|
    requires UnitsBound(t, refs, textures, n - 1)
    requires IsTexture(SlotAt(refs, n - 1).slotType)
    ensures var u := TextureCount(refs, n - 1);
      UnitsBound(if SlotAt(refs, n - 1).slotType == Tex2D
                 then BindUnit(t, Texture2D, u, Get(textures, refs.uniforms.keys[n - 1]))
                 else BindUnit(t, TextureCubeMap, u, None), refs, textures, n)
  {
    var u := TextureCount(refs, n - 1);
    var t' := if SlotAt(refs, n - 1).slotType == Tex2D
              then BindUnit(t, Texture2D, u, Get(textures, refs.uniforms.keys[n - 1]))
              else BindUnit(t, TextureCubeMap, u, None);
    forall j | 0 <= j < n && IsTexture(SlotAt(refs, j).slotType)
      ensures TextureBoundAt(t', refs, textures, j)
    {
      if j < n - 1 {
        assert TextureBoundAt(t, refs, textures, j);
        TextureCountGrows(refs, j, n - 1);
      }
    }
  }

  lemma UnitsBoundSkip(t: TextureState, refs: ShaderRefs, textures: Dict<Handle>, n: nat)
    requires 0 < n <= |refs.uniforms.keys|
    requires UnitsBound(t, refs, textures, n - 1)
    requires !IsTexture(SlotAt(refs, n - 1).slotType)
    ensures UnitsBound(t, refs, textures, n)
  {
  }

  /**
   * A completed pass over the first `n` uniform keys changes no modelled state but the texture
   * state (uniform values are not part of `GlState`), and leaves
   * every texture slot's texture bound on the unit numbered by the texture slots before it.
   */
  lemma {:induction false} UniformPassEffect(s: GlState, schema: Schema, refs: ShaderRefs, uniforms: Dict<JsValue>,
                                             textures: Dict<Handle>, n: nat)
    requires n <= |refs.uniforms.keys|
    requires UniformPass(schema, refs, uniforms, textures, n).ok
    ensures var r := Run(s, UniformPass(schema, refs, uniforms, textures, n).cmds);
      r == s.(textures := r.textures) && UnitsBound(r.textures, refs, textures, n)
  {
    if n == 0 {
      assert UniformPass(schema, refs, uniforms, textures, 0).cmds == [];
    } else {
      var p := UniformPass(schema, refs, uniforms, textures, n - 1);
      var key := refs.uniforms.keys[n - 1];
      var slot := SlotAt(refs, n - 1);
      var st := SlotStep(schema, uniforms, textures, key, slot, p.unit);
      UniformPassEffect(s, schema, refs, uniforms, textures, n - 1);
      TextureUnits(schema, refs, uniforms, textures, n - 1);
      var mid := Run(s, p.cmds);
      RunAppend(s, p.cmds, st.cmds);
      SlotStepEffect(mid, schema, uniforms, textures, key, slot, p.unit);
      if IsTexture(slot.slotType) {
        UnitsBoundStep(mid.textures, refs, textures, n);
      } else {
        UnitsBoundSkip(mid.textures, refs, textures, n);
      }
    }
  }

  // ---------------------------------------------------------------------------
  // Attributes

  /** The locations of the attribute keys among the first `n` that `draw` sets up. */
  function UsedLocations(schema: Schema, refs: ShaderRefs, n: nat): set<int>
    requires n <= |refs.attributes.keys|
  {
    if n == 0 then {}
    else
      var key := refs.attributes.keys[n - 1];
      UsedLocations(schema, refs, n - 1) + (if AttributeUsed(schema, key) then {refs.attributes.props[key].location} else {})
  }

  /** No attribute key after the `j`-th among the first `n` that `draw` sets up has the `j`-th key's location. */
  predicate NotOverwritten(schema: Schema, refs: ShaderRefs, j: nat, n: nat)
    requires j < n <= |refs.attributes.keys|
  {
    forall i :: j < i < n && AttributeUsed(schema, refs.attributes.keys[i])
      ==> refs.attributes.props[refs.attributes.keys[i]].location != refs.attributes.props[refs.attributes.keys[j]].location
  }

  /** Attribute key `j` points at its data buffer with its component count. */
  ghost predicate PointerSet(a: AttribState, schema: Schema, refs: ShaderRefs, dataBuffers: Dict<Handle>, j: nat)
    requires j < |refs.attributes.keys|
    requires AttributeUsed(schema, refs.attributes.keys[j])
  {
    var key := refs.attributes.keys[j];
    var location := refs.attributes.props[key].location;
    location in a.pointers
    && a.pointers[location] == AttribPointer(Get(dataBuffers, key), ComponentCount(schema.buffers.props[key]))
  }

  /** The state after the attribute calls of the first `n` keys, starting from `s`. */
  ghost predicate AttribsReady(s: GlState, r: GlState, schema: Schema, refs: ShaderRefs, dataBuffers: Dict<Handle>, n: nat)
    requires n <= |refs.attributes.keys|
  {
    && r == s.(buffers := s.buffers.(arrayBuffer := r.buffers.arrayBuffer), attribs := r.attribs)
    && r.attribs.enabled == s.attribs.enabled + UsedLocations(schema, refs, n)
    && (forall j :: 0 <= j < n && AttributeUsed(schema, refs.attributes.keys[j]) && NotOverwritten(schema, refs, j, n) ==>
          PointerSet(r.attribs, schema, refs, dataBuffers, j))
  }

  lemma AttribCommandsEffect(s: GlState, schema: Schema, refs: ShaderRefs, dataBuffers: Dict<Handle>, key: string)
    requires key in refs.attributes.props
    ensures var location := refs.attributes.props[key].location;
      Run(s, AttribCommands(schema, refs, dataBuffers, key))
        == if !AttributeUsed(schema, key) then s
           else s.(buffers := s.buffers.(arrayBuffer := Get(dataBuffers, key)),
                   attribs := AttribState(
                     s.attribs.pointers[location := AttribPointer(Get(dataBuffers, key), ComponentCount(schema.buffers.props[key]))],
                     s.attribs.enabled + {location}))
  {
    var cs := AttribCommands(schema, refs, dataBuffers, key);
    if AttributeUsed(schema, key) {
      RunThree(s, cs[0], cs[1], cs[2]);
      assert cs == [cs[0], cs[1], cs[2]];
    }
  }

  lemma AttribsReadyStep(s: GlState, mid: GlState, schema: Schema, refs: ShaderRefs, dataBuffers: Dict<Handle>, n: nat)
    requires 0 < n <= |refs.attributes.keys|
    requires AttribsReady(s, mid, schema, refs, dataBuffers, n - 1)
    ensures AttribsReady(s, Run(mid, AttribCommands(schema, refs, dataBuffers, refs.attributes.keys[n - 1])),
                         schema, refs, dataBuffers, n)
  {
    var key := refs.attributes.keys[n - 1];
    AttribCommandsEffect(mid, schema, refs, dataBuffers, key);
    var r := Run(mid, AttribCommands(schema, refs, dataBuffers, key));
    PointersStep(mid.attribs, r.attribs, schema, refs, dataBuffers, n);
  }

  /** The pointers of the first `n - 1` keys that no later key overwrites survive the `n`-th key's calls. */
  lemma PointersStep(a: AttribState, a': AttribState, schema: Schema, refs: ShaderRefs, dataBuffers: Dict<Handle>, n: nat)
    requires 0 < n <= |refs.attributes.keys|
    requires forall j :: 0 <= j < n - 1 && AttributeUsed(schema, refs.attributes.keys[j]) && NotOverwritten(schema, refs, j, n - 1) ==>
               PointerSet(a, schema, refs, dataBuffers, j)
    requires var key := refs.attributes.keys[n - 1];
      a' == if !AttributeUsed(schema, key) then a
            else AttribState(a.pointers[refs.attributes.props[key].location :=
                                          AttribPointer(Get(dataBuffers, key), ComponentCount(schema.buffers.props[key]))],
                             a.enabled + {refs.attributes.props[key].location})
    ensures forall j :: 0 <= j < n && AttributeUsed(schema, refs.attributes.keys[j]) && NotOverwritten(schema, refs, j, n) ==>
              PointerSet(a', schema, refs, dataBuffers, j)
  {
    forall j | 0 <= j < n && AttributeUsed(schema, refs.attributes.keys[j]) && NotOverwritten(schema, refs, j, n)
      ensures PointerSet(a', schema, refs, dataBuffers, j)
    {
      if j < n - 1 {
        assert NotOverwritten(schema, refs, j, n - 1);
        assert PointerSet(a, schema, refs, dataBuffers, j);
      }
    }
  }

  /**
   * The attribute calls of the first `n` keys enable exactly the locations of the keys that
   * are set up, and point each location at the data buffer, with the component count, of the
   * last set-up key that has it; apart from the array-buffer binding nothing else changes.
   */
  lemma {:induction false} AttributesEffect(s: GlState, schema: Schema, refs: ShaderRefs, dataBuffers: Dict<Handle>, n: nat)
    requires n <= |refs.attributes.keys|
    ensures AttribsReady(s, Run(s, AttribTrace(schema, refs, dataBuffers, n)), schema, refs, dataBuffers, n)
  {
    if n == 0 {
      assert AttribTrace(schema, refs, dataBuffers, 0) == [];
    } else {
      AttributesEffect(s, schema, refs, dataBuffers, n - 1);
      var key := refs.attributes.keys[n - 1];
      RunAppend(s, AttribTrace(schema, refs, dataBuffers, n - 1), AttribCommands(schema, refs, dataBuffers, key));
      AttribsReadyStep(s, Run(s, AttribTrace(schema, refs, dataBuffers, n - 1)), schema, refs, dataBuffers, n);
    }
  }

  // ---------------------------------------------------------------------------
  // The whole draw

  lemma {:induction false} AttribTraceStage(schema: Schema, refs: ShaderRefs, dataBuffers: Dict<Handle>, n: nat)
    requires n <= |refs.attributes.keys|
    ensures forall c :: c in AttribTrace(schema, refs, dataBuffers, n) ==> AttribStage(c)
  {
    if n > 0 {
      AttribTraceStage(schema, refs, dataBuffers, n - 1);
    }
  }

  lemma {:induction false} UniformPassStage(schema: Schema, refs: ShaderRefs, uniforms: Dict<JsValue>, textures: Dict<Handle>, n: nat)
    requires n <= |refs.uniforms.keys|
    ensures forall c :: c in UniformPass(schema, refs, uniforms, textures, n).cmds ==> UniformStage(c)
  {
    if n > 0 {
      UniformPassStage(schema, refs, uniforms, textures, n - 1);
      var p := UniformPass(schema, refs, uniforms, textures, n - 1);
      if p.ok {
        var key := refs.uniforms.keys[n - 1];
        var slot := SlotAt(refs, n - 1);
        if !IsTexture(slot.slotType) && slot.slotType != Index {
          UniformResolution(schema, uniforms, textures, key, slot, p.unit);
        }
      }
    }
  }

  /**
   * The order of the calls of `draw`: the program is selected first and only there; the
   * index buffer is bound after every attribute call and before every uniform call; the
   * elements are drawn once, as the last call, exactly when no key threw, as triangles
   * exactly when the schema's mode is triangles, with the index count and the offset in
   * bytes of 32-bit indices.
   */
  lemma DrawOrder(schema: Schema, refs: ShaderRefs, dataBuffers: Dict<Handle>, index: IndexResource,
                  uniforms: Dict<JsValue>, textures: Dict<Handle>)
    ensures var o := DrawTrace(schema, refs, dataBuffers, index, uniforms, textures);
      var k := |DrawHead(schema, refs, dataBuffers, index)| - 1;
      && 0 < k < |o.cmds|
      && o.cmds[0] == UseProgram(refs.program)
      && (forall i :: 0 < i < |o.cmds| ==> !o.cmds[i].UseProgram?)
      && o.cmds[k] == BindBuffer(ElementArrayBuffer, index.buffer)
      && (forall i :: 0 < i < k ==> AttribStage(o.cmds[i]))
      && (forall i :: k < i < |o.cmds| ==> !AttribStage(o.cmds[i]) && !o.cmds[i].BindBuffer?)
      && (forall i :: 0 <= i <= k ==> !IsUniformCall(o.cmds[i]))
      && (forall i :: 0 <= i < |o.cmds| && o.cmds[i].DrawElements? ==> o.ok && i == |o.cmds| - 1)
      && (o.ok ==> var last := o.cmds[|o.cmds| - 1];
            && last.DrawElements?
            && (last.mode == TriangleList <==> schema.mode == Some(Triangles))
            && last.count == index.count
            && last.indexType == UnsignedIntComponents
            && last.byteOffset == 4 * index.offset)
  {
    var o := DrawTrace(schema, refs, dataBuffers, index, uniforms, textures);
    var attribs := AttribTrace(schema, refs, dataBuffers, |refs.attributes.keys|);
    var pass := UniformPass(schema, refs, uniforms, textures, |refs.uniforms.keys|);
    var tail := if pass.ok then [DrawCall(schema, index)] else [];
    AttribTraceStage(schema, refs, dataBuffers, |refs.attributes.keys|);
    UniformPassStage(schema, refs, uniforms, textures, |refs.uniforms.keys|);
    assert o.cmds == [UseProgram(refs.program)] + attribs + [BindBuffer(ElementArrayBuffer, index.buffer)] + pass.cmds + tail;
    ConcatOrder(o.cmds, refs.program, attribs, index.buffer, pass.cmds, tail);
  }

  /** The positional facts behind `DrawOrder`, for any calls of the right kinds in that arrangement. */
  lemma ConcatOrder(cs: seq<Command>, program: Option<Handle>, attribs: seq<Command>, buffer: Option<Handle>,
                    pass: seq<Command>, tail: seq<Command>)
    requires cs == [UseProgram(program)] + attribs + [BindBuffer(ElementArrayBuffer, buffer)] + pass + tail
    requires forall c :: c in attribs ==> AttribStage(c)
    requires forall c :: c in pass ==> UniformStage(c)
    requires |tail| <= 1 && forall c :: c in tail ==> c.DrawElements?
    ensures var k := |attribs| + 1;
      && cs[0] == UseProgram(program)
      && cs[k] == BindBuffer(ElementArrayBuffer, buffer)
      && (forall i :: 0 < i < |cs| ==> !cs[i].UseProgram?)
      && (forall i :: 0 < i < k ==> AttribStage(cs[i]))
      && (forall i :: k < i < |cs| ==> !AttribStage(cs[i]) && !cs[i].BindBuffer?)
      && (forall i :: 0 <= i <= k ==> !IsUniformCall(cs[i]))
      && (forall i :: 0 <= i < |cs| && cs[i].DrawElements? ==> |tail| == 1 && i == |cs| - 1)
  {
    var k := |attribs| + 1;
    forall i | 0 < i < k
      ensures cs[i] == attribs[i - 1]
    {
    }
    forall i | k < i < k + 1 + |pass|
      ensures cs[i] == pass[i - k - 1]
    {
    }
    forall i | k + 1 + |pass| <= i < |cs|
      ensures cs[i] == tail[i - k - 1 - |pass|]
    {
    }
    forall i | 0 < i < |cs|
      ensures !cs[i].UseProgram? && (cs[i].DrawElements? ==> |tail| == 1 && i == |cs| - 1)
    {
      if i < k {
        assert attribs[i - 1] in attribs;
      } else if k < i < k + 1 + |pass| {
        assert pass[i - k - 1] in pass;
      } else if k < i {
        assert tail[i - k - 1 - |pass|] in tail;
      }
    }
    forall i | 0 < i < k
      ensures AttribStage(cs[i])
    {
      assert attribs[i - 1] in attribs;
    }
    forall i | k < i < |cs|
      ensures !AttribStage(cs[i]) && !cs[i].BindBuffer?
    {
      if i < k + 1 + |pass| {
        assert pass[i - k - 1] in pass;
      } else {
        assert tail[i - k - 1 - |pass|] in tail;
      }
    }
  }

  /**
   * When `draw` reaches its draw call, the plugin's program is in use, the index buffer is
   * bound, the set-up attribute locations are enabled and point at the data of the last key
   * set up at each, and every texture slot's texture is bound on its own unit.
   */
  lemma StateAtDraw(s: GlState, schema: Schema, refs: ShaderRefs, dataBuffers: Dict<Handle>, index: IndexResource,
                    uniforms: Dict<JsValue>, textures: Dict<Handle>)
    requires DrawTrace(schema, refs, dataBuffers, index, uniforms, textures).ok
    ensures var o := DrawTrace(schema, refs, dataBuffers, index, uniforms, textures);
      var r := Run(s, o.cmds[..|o.cmds| - 1]);
      && r.program == refs.program
      && r.buffers.elementBuffer == index.buffer
      && r.buffers.data == s.buffers.data
      && AttribsReady(s.(program := refs.program), r.(buffers := r.buffers.(elementBuffer := s.buffers.elementBuffer),
                                                      textures := s.textures),
                      schema, refs, dataBuffers, |refs.attributes.keys|)
      && UnitsBound(r.textures, refs, textures, |refs.uniforms.keys|)
  {
    var o := DrawTrace(schema, refs, dataBuffers, index, uniforms, textures);
    var attribs := AttribTrace(schema, refs, dataBuffers, |refs.attributes.keys|);
    var pass := UniformPass(schema, refs, uniforms, textures, |refs.uniforms.keys|);
    var head := DrawHead(schema, refs, dataBuffers, index);
    assert o.cmds[..|o.cmds| - 1] == head + pass.cmds;
    var s1 := Apply(s, UseProgram(refs.program));
    RunCons(s, UseProgram(refs.program), attribs);
    AttributesEffect(s1, schema, refs, dataBuffers, |refs.attributes.keys|);
    var s2 := Run(s1, attribs);
    RunAppend(s, [UseProgram(refs.program)] + attribs, [BindBuffer(ElementArrayBuffer, index.buffer)]);
    RunOne(s2, BindBuffer(ElementArrayBuffer, index.buffer));
    var s3 := Run(s, head);
    RunAppend(s, head, pass.cmds);
    UniformPassEffect(s3, schema, refs, uniforms, textures, |refs.uniforms.keys|);
  }
}
