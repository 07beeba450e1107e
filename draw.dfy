/**
 * `padDefault` and `draw` of `gl-utils.js`: one draw call of a shader plugin. The program is
 * selected, every vertex attribute with a data buffer is pointed at it, the index buffer is
 * bound, every uniform is uploaded (its explicit value, else its schema default) and every
 * texture slot is bound to the next texture unit, and finally the indexed elements are drawn.
 * A `TypeError` thrown half-way through (a non-texture uniform with neither a value nor a
 * schema entry, or with a value or default to upload and a slot type without a setter) leaves
 * the calls made so far and skips the draw.
 */
module Draw {
  import opened Wrappers
  import opened JsObject
  import opened BeamTypes
  import opened MiscUtils
  import opened GlContext
  import opened GlStateModel
  import opened ShaderCompiler

  /** An index resource: `{ buffer, count, offset }`, the offset counted in indices. */
  datatype IndexResource = IndexResource(buffer: Option<Handle>, count: int, offset: int)

  /** `values[key]`: the stored value, or `undefined`. */
  function Lookup(values: Dict<JsValue>, key: string): JsValue {
    Get(values, key).GetOr(Undefined)
  }

  /**
   * `padDefault(schema, key, val)`: `val` unless it is `undefined`, else the `default` of the
   * uniform slot `key`; `None` is the `TypeError` of reading `default` when `schema.uniforms`
   * has no slot `key`.
   */
  function PadDefault(schema: Schema, key: string, val: JsValue): Option<JsValue> {
    if val != Undefined then Some(val)
    else if key in schema.uniforms.props then Some(schema.uniforms.props[key].defaultValue)
    else None
  }

  // ---------------------------------------------------------------------------
  // Vertex attributes

  /** `draw` sets up an attribute only when the schema has a buffer slot for it that is not the index slot. */
  predicate AttributeUsed(schema: Schema, key: string) {
    key in schema.buffers.props && schema.buffers.props[key].slotType != Index
  }

  /** `n || getNumComponents(type)`: the declared count unless it is absent or zero. */
  function ComponentCount(decl: BufferDecl): int {
    if decl.n.Some? && decl.n.value != 0 then decl.n.value else NumComponents(decl.slotType)
  }

  /** The calls for one attribute key: nothing for a skipped key; else bind its buffer, point the attribute at it and enable it. */
  function AttribCommands(schema: Schema, refs: ShaderRefs, dataBuffers: Dict<Handle>, key: string): seq<Command>
    requires key in refs.attributes.props
  {
    if AttributeUsed(schema, key) then
      var location := refs.attributes.props[key].location;
      [ BindBuffer(ArrayBuffer, Get(dataBuffers, key)),
        VertexAttribPointer(location, ComponentCount(schema.buffers.props[key]), FloatComponents, false, 0, 0),
        EnableVertexAttribArray(location) ]
    else []
  }

  /** The attribute calls for the first `n` attribute keys of `refs`. */
  function AttribTrace(schema: Schema, refs: ShaderRefs, dataBuffers: Dict<Handle>, n: nat): seq<Command>
    requires n <= |refs.attributes.keys|
  {
    if n == 0 then []
    else AttribTrace(schema, refs, dataBuffers, n - 1)
           + AttribCommands(schema, refs, dataBuffers, refs.attributes.keys[n - 1])
  }

  // ---------------------------------------------------------------------------
  // Uniforms and texture units

  /** Values the `int` and `float` setters upload as a single scalar: falsy values, numbers and strings. */
  predicate ScalarShaped(v: JsValue) {
    !Truthy(v) || v.Num? || v.Str?
  }

  /** The setter call for a value slot of type `t`, or `None` where the setter table has no entry (the index type). */
  function ValueCall(t: SchemaType, location: Option<UniformLocation>, val: JsValue): Option<Command>
    requires !IsTexture(t)
  {
    match t
    case Vec4 => Some(Uniform4fv(location, val))
    case Vec3 => Some(Uniform3fv(location, val))
    case Vec2 => Some(Uniform2fv(location, val))
    case Int => Some(if ScalarShaped(val) then Uniform1i(location, val) else Uniform1iv(location, val))
    case Float => Some(if ScalarShaped(val) then Uniform1f(location, val) else Uniform1fv(location, val))
    case Mat4 => Some(UniformMatrix4fv(location, false, val))
    case Mat3 => Some(UniformMatrix3fv(location, false, val))
    case Mat2 => Some(UniformMatrix2fv(location, false, val))
    case Index => None
  }

  /** The calls for a texture slot on `unit`: the sampler gets the unit, the unit is activated, the texture bound (a cube slot binds `null`). */
  function TextureCalls(t: SchemaType, location: Option<UniformLocation>, unit: int, texture: Option<Handle>): seq<Command> {
    [ Uniform1i(location, Num(unit as real)),
      ActiveTexture(unit),
      if t == Tex2D then BindTexture(Texture2D, texture) else BindTexture(TextureCubeMap, None) ]
  }

  /** The calls made so far, the last texture unit used, and whether no `TypeError` was thrown. */
  datatype Pass = Pass(cmds: seq<Command>, unit: int, ok: bool)

  /** One uniform key of `draw`, with `unit` the last texture unit used before it. */
  function SlotStep(schema: Schema, uniforms: Dict<JsValue>, textures: Dict<Handle>,
                    key: string, slot: UniformRef, unit: int): Pass
  {
    if IsTexture(slot.slotType) then
      Pass(TextureCalls(slot.slotType, slot.location, unit + 1, Get(textures, key)), unit + 1, true)
    else
      match PadDefault(schema, key, Lookup(uniforms, key))
      case None => Pass([], unit, false)
      case Some(val) =>
        if val == Undefined then Pass([], unit, true)
        else
          match ValueCall(slot.slotType, slot.location, val)
          case None => Pass([], unit, false)
          case Some(c) => Pass([c], unit, true)
  }

  /** The uniform calls for the first `n` uniform keys of `refs`, stopping at the first `TypeError`. */
  function UniformPass(schema: Schema, refs: ShaderRefs, uniforms: Dict<JsValue>, textures: Dict<Handle>, n: nat): Pass
    requires n <= |refs.uniforms.keys|
  {
    if n == 0 then Pass([], -1, true)
    else
      var p := UniformPass(schema, refs, uniforms, textures, n - 1);
      if !p.ok then p
      else
        var key := refs.uniforms.keys[n - 1];
        var st := SlotStep(schema, uniforms, textures, key, refs.uniforms.props[key], p.unit);
        Pass(p.cmds + st.cmds, st.unit, st.ok)
  }

  // ---------------------------------------------------------------------------
  // The whole draw

  /** `schema.mode === GLTypes.triangles ? gl.TRIANGLES : gl.LINES`. */
  function DrawModeOf(schema: Schema): DrawMode {
    if schema.mode == Some(Triangles) then TriangleList else LineList
  }

  /** The calls of `draw` up to the first uniform: the program, the attributes and the index buffer. */
  function DrawHead(schema: Schema, refs: ShaderRefs, dataBuffers: Dict<Handle>, index: IndexResource): seq<Command> {
    [UseProgram(refs.program)]
      + AttribTrace(schema, refs, dataBuffers, |refs.attributes.keys|)
      + [BindBuffer(ElementArrayBuffer, index.buffer)]
  }

  /** The draw call itself: indices are 32-bit unsigned, so the offset in bytes is four times the offset in indices. */
  function DrawCall(schema: Schema, index: IndexResource): Command {
    DrawElements(DrawModeOf(schema), index.count, UnsignedIntComponents, index.offset * 4)
  }

  datatype Outcome = Outcome(cmds: seq<Command>, ok: bool)

  /** All calls of `draw`, and whether it returned normally. */
  function DrawTrace(schema: Schema, refs: ShaderRefs, dataBuffers: Dict<Handle>, index: IndexResource,
                     uniforms: Dict<JsValue>, textures: Dict<Handle>): Outcome
  {
    var pass := UniformPass(schema, refs, uniforms, textures, |refs.uniforms.keys|);
    Outcome(DrawHead(schema, refs, dataBuffers, index) + pass.cmds + (if pass.ok then [DrawCall(schema, index)] else []),
            pass.ok)
  }

  /** Once a `TypeError` has been thrown, later keys add nothing. */
  lemma {:induction false} FailureStops(schema: Schema, refs: ShaderRefs, uniforms: Dict<JsValue>, textures: Dict<Handle>,
                                        i: nat, n: nat)
    requires i <= n <= |refs.uniforms.keys|
    requires !UniformPass(schema, refs, uniforms, textures, i).ok
    ensures UniformPass(schema, refs, uniforms, textures, n) == UniformPass(schema, refs, uniforms, textures, i)
    decreases n - i
  {
    if i < n {
      FailureStops(schema, refs, uniforms, textures, i, n - 1);
    }
  }

  /** The body of `draw` for one attribute key. */
  method SetAttribute(gl: GL, schema: Schema, refs: ShaderRefs, dataBuffers: Dict<Handle>, key: string)
    requires key in refs.attributes.props
    modifies gl
    ensures gl.created == old(gl.created)
    ensures gl.log == old(gl.log) + AttribCommands(schema, refs, dataBuffers, key)
  {
    if !AttributeUsed(schema, key) {
      return;
    }
    var location := refs.attributes.props[key].location;
    var decl := schema.buffers.props[key];
    var numComponents := ComponentCount(decl);
    gl.Issue(BindBuffer(ArrayBuffer, Get(dataBuffers, key)));
    gl.Issue(VertexAttribPointer(location, numComponents, FloatComponents, false, 0, 0));
    gl.Issue(EnableVertexAttribArray(location));
  }

  /** The body of `draw` for one uniform key; `unit` is the last texture unit used so far. */
  method SetUniform(gl: GL, schema: Schema, uniforms: Dict<JsValue>, textures: Dict<Handle>,
                    key: string, slot: UniformRef, unit: int) returns (unit': int, ok: bool)
    modifies gl
    ensures gl.created == old(gl.created)
    ensures var st := SlotStep(schema, uniforms, textures, key, slot, unit);
      gl.log == old(gl.log) + st.cmds && unit' == st.unit && ok == st.ok
  {
    unit', ok := unit, true;
    var location := slot.location;
    var val := Undefined;
    var isTexture := IsTexture(slot.slotType);
    if !isTexture {
      var padded := PadDefault(schema, key, Lookup(uniforms, key));
      if padded.None? {
        return unit', false;
      }
      val := padded.value;
    }
    if val != Undefined || isTexture {
      match slot.slotType
      case Vec4 => gl.Issue(Uniform4fv(location, val));
      case Vec3 => gl.Issue(Uniform3fv(location, val));
      case Vec2 => gl.Issue(Uniform2fv(location, val));
      case Int =>
        if ScalarShaped(val) {
          gl.Issue(Uniform1i(location, val));
        } else {
          gl.Issue(Uniform1iv(location, val));
        }
      case Float =>
        if ScalarShaped(val) {
          gl.Issue(Uniform1f(location, val));
        } else {
          gl.Issue(Uniform1fv(location, val));
        }
      case Mat4 => gl.Issue(UniformMatrix4fv(location, false, val));
      case Mat3 => gl.Issue(UniformMatrix3fv(location, false, val));
      case Mat2 => gl.Issue(UniformMatrix2fv(location, false, val));
      case Tex2D =>
        unit' := unit' + 1;
        var texture := Get(textures, key);
        gl.Issue(Uniform1i(location, Num(unit' as real)));
        gl.Issue(ActiveTexture(unit'));
        gl.Issue(BindTexture(Texture2D, texture));
      case TexCube =>
        unit' := unit' + 1;
        var texture: Option<Handle> := None;
        gl.Issue(Uniform1i(location, Num(unit' as real)));
        gl.Issue(ActiveTexture(unit'));
        gl.Issue(BindTexture(TextureCubeMap, texture));
      case Index =>
        ok := false;
    }
  }

  lemma AttribStep(log0: seq<Command>, log: seq<Command>, schema: Schema, refs: ShaderRefs, dataBuffers: Dict<Handle>,
                   i: nat, key: string)
    requires i < |refs.attributes.keys| && key == refs.attributes.keys[i]
    requires log == log0 + AttribTrace(schema, refs, dataBuffers, i)
    ensures log + AttribCommands(schema, refs, dataBuffers, key) == log0 + AttribTrace(schema, refs, dataBuffers, i + 1)
  {
  }

  lemma UniformStep(log0: seq<Command>, log: seq<Command>, schema: Schema, refs: ShaderRefs,
                    uniforms: Dict<JsValue>, textures: Dict<Handle>, i: nat, key: string, st: Pass)
    requires i < |refs.uniforms.keys| && key == refs.uniforms.keys[i]
    requires var p := UniformPass(schema, refs, uniforms, textures, i);
      p.ok && log == log0 + p.cmds && st == SlotStep(schema, uniforms, textures, key, refs.uniforms.props[key], p.unit)
    ensures var q := UniformPass(schema, refs, uniforms, textures, i + 1);
      log + st.cmds == log0 + q.cmds && q.unit == st.unit && q.ok == st.ok
  {
  }

  /** The `forEach` over the attribute keys of `draw`. */
  method SetAttributes(gl: GL, schema: Schema, refs: ShaderRefs, dataBuffers: Dict<Handle>)
    modifies gl
    ensures gl.created == old(gl.created)
    ensures gl.log == old(gl.log) + AttribTrace(schema, refs, dataBuffers, |refs.attributes.keys|)
  {
    ghost var log0 := gl.log;
    var attributeKeys := refs.attributes.keys;
    var i := 0;
    while i < |attributeKeys|
      invariant 0 <= i <= |attributeKeys|
      invariant gl.created == old(gl.created)
      invariant gl.log == log0 + AttribTrace(schema, refs, dataBuffers, i)
    {
      var key := attributeKeys[i];
      AttribStep(log0, gl.log, schema, refs, dataBuffers, i, key);
      SetAttribute(gl, schema, refs, dataBuffers, key);
      i := i + 1;
    }
  }

  /** The `forEach` over the uniform keys of `draw`; `ok` is false when one of them throws. */
  method SetUniforms(gl: GL, schema: Schema, refs: ShaderRefs, uniforms: Dict<JsValue>, textures: Dict<Handle>)
    returns (ok: bool)
    modifies gl
    ensures gl.created == old(gl.created)
    ensures var pass := UniformPass(schema, refs, uniforms, textures, |refs.uniforms.keys|);
      gl.log == old(gl.log) + pass.cmds && ok == pass.ok
  {
    ghost var log0 := gl.log;
    var unit := -1;
    var uniformKeys := refs.uniforms.keys;
    var j := 0;
    while j < |uniformKeys|
      invariant 0 <= j <= |uniformKeys|
      invariant gl.created == old(gl.created)
      invariant var p := UniformPass(schema, refs, uniforms, textures, j);
        p.ok && gl.log == log0 + p.cmds && unit == p.unit
    {
      var key := uniformKeys[j];
      ghost var logBefore := gl.log;
      ghost var st := SlotStep(schema, uniforms, textures, key, refs.uniforms.props[key], unit);
      var slotOk;
      unit, slotOk := SetUniform(gl, schema, uniforms, textures, key, refs.uniforms.props[key], unit);
      UniformStep(log0, logBefore, schema, refs, uniforms, textures, j, key, st);
      if !slotOk {
        FailureStops(schema, refs, uniforms, textures, j + 1, |uniformKeys|);
        return false;
      }
      j := j + 1;
    }
    return true;
  }

  /** The straight-line start of `draw`: select the program, set up the attributes, bind the index buffer. */
  method SetHead(gl: GL, schema: Schema, refs: ShaderRefs, dataBuffers: Dict<Handle>, index: IndexResource)
    modifies gl
    ensures gl.created == old(gl.created)
    ensures gl.log == old(gl.log) + DrawHead(schema, refs, dataBuffers, index)
  {
    gl.Issue(UseProgram(refs.program));
    SetAttributes(gl, schema, refs, dataBuffers);
    gl.Issue(BindBuffer(ElementArrayBuffer, index.buffer));
  }

  /**
   * `draw(gl, plugin, dataBuffers, indexResource, uniforms, textures)` for a plugin with
   * `schema` and `refs`: the calls are those of `DrawTrace`, and it returns normally (`ok`)
   * exactly when no uniform key throws.
   */
  method DrawPlugin(gl: GL, schema: Schema, refs: ShaderRefs, dataBuffers: Dict<Handle>, index: IndexResource,
                    uniforms: Dict<JsValue>, textures: Dict<Handle>) returns (ok: bool)
    modifies gl
    ensures gl.created == old(gl.created)
    ensures var o := DrawTrace(schema, refs, dataBuffers, index, uniforms, textures);
      gl.log == old(gl.log) + o.cmds && ok == o.ok
  {
    ghost var log0 := gl.log;
    SetHead(gl, schema, refs, dataBuffers, index);
    ghost var pass := UniformPass(schema, refs, uniforms, textures, |refs.uniforms.keys|);
    ghost var o := DrawTrace(schema, refs, dataBuffers, index, uniforms, textures);
    assert o.ok == pass.ok;
    ok := SetUniforms(gl, schema, refs, uniforms, textures);
    if !ok {
      assert o.cmds == DrawHead(schema, refs, dataBuffers, index) + pass.cmds + [];
      return;
    }
    ghost var logUniforms := gl.log;
    var drawMode := DrawModeOf(schema);
    gl.Issue(DrawElements(drawMode, index.count, UnsignedIntComponents, index.offset * 4));
    assert o.cmds == DrawHead(schema, refs, dataBuffers, index) + pass.cmds + [DrawCall(schema, index)];
  }
}
