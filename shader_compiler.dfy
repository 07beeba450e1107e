/**
 * Shader compilation in `gl-utils.js`: the `#define` prefix, `compileShader`, `initShader`
 * and the attribute and uniform tables of `initShaderRefs`.
 */
module ShaderCompiler {
  import opened Wrappers
  import opened JsObject
  import opened BeamTypes
  import opened GlContext

  // ---------------------------------------------------------------------------
  // The `#define` prefix

  /** The line `#define <key> <value>` and its newline. */
  function DefineLine(key: string, value: string): string {
    "#define " + key + " " + value + "\n"
  }

  /** The `reduce` over the first `n` keys: starting from "", each key appends its line. */
  function DefinesUpTo(defines: Dict<string>, n: nat): string
    requires n <= |defines.keys|
  {
    if n == 0 then ""
    else DefinesUpTo(defines, n - 1) + DefineLine(defines.keys[n - 1], defines.props[defines.keys[n - 1]])
  }

  /** The prefix put before both shader sources. */
  function DefinePrefix(defines: Dict<string>): string {
    DefinesUpTo(defines, |defines.keys|)
  }

  /** The lines of a list of `(key, value)` pairs, first pair first. */
  function LinesOf(entries: seq<(string, string)>): string {
    if entries == [] then "" else DefineLine(entries[0].0, entries[0].1) + LinesOf(entries[1..])
  }

  lemma {:induction false} LinesOfSnoc(entries: seq<(string, string)>, e: (string, string))
    ensures LinesOf(entries + [e]) == LinesOf(entries) + DefineLine(e.0, e.1)
  {
    if entries == [] {
      assert entries + [e] == [e];
      assert [e][1..] == [];
    } else {
      assert (entries + [e])[0] == entries[0];
      assert (entries + [e])[1..] == entries[1..] + [e];
      LinesOfSnoc(entries[1..], e);
    }
  }

  /** The fold over the first `n` keys writes the lines of the first `n` entries. */
  lemma {:induction false} DefinesUpToLines(defines: Dict<string>, n: nat)
    requires n <= |defines.keys|
    ensures DefinesUpTo(defines, n) == LinesOf(Entries(defines)[..n])
  {
    var es := Entries(defines);
    if n == 0 {
      assert es[..0] == [];
    } else {
      DefinesUpToLines(defines, n - 1);
      assert es[..n] == es[..n - 1] + [es[n - 1]];
      LinesOfSnoc(es[..n - 1], es[n - 1]);
    }
  }

  /** `s` cut at its first `c`: the text before and the text after; `None` when `c` does not occur. */
  function SplitAt(s: string, c: char): (r: Option<(string, string)>)
    ensures r.None? <==> c !in s
    ensures r.Some? ==> s == r.value.0 + [c] + r.value.1 && c !in r.value.0
  {
    if s == [] then None
    else if s[0] == c then Some(([], s[1..]))
    else
      match SplitAt(s[1..], c)
      case None => None
      case Some(parts) =>
        assert s == [s[0]] + s[1..];
        Some(([s[0]] + parts.0, parts.1))
  }

  /** Cutting `a + [c] + b` at its first `c` gives back `a` and `b` when `c` is not in `a`. */
  lemma {:induction false} SplitAtFirst(a: string, c: char, b: string)
    requires c !in a
    ensures SplitAt(a + [c] + b, c) == Some((a, b))
  {
    if a == [] {
      assert a + [c] + b == [c] + b;
      assert ([c] + b)[1..] == b;
    } else {
      SplitAtFirst(a[1..], c, b);
      assert (a + [c] + b)[1..] == a[1..] + [c] + b;
      assert [a[0]] + a[1..] == a;
    }
  }

  /** Reads a define prefix back into its `(key, value)` pairs; `None` when the text is not one. */
  function ParseDefines(s: string): Option<seq<(string, string)>>
    decreases |s|
  {
    if s == [] then Some([])
    else if |s| < 8 || s[..8] != "#define " then None
    else
      match SplitAt(s[8..], ' ')
      case None => None
      case Some(keyRest) =>
        match SplitAt(keyRest.1, '\n')
        case None => None
        case Some(valueRest) =>
          match ParseDefines(valueRest.1)
          case None => None
          case Some(entries) => Some([(keyRest.0, valueRest.0)] + entries)
  }

  /** A key is one word and a value one line. */
  predicate PrintableDefine(key: string, value: string) {
    ' ' !in key && '\n' !in value
  }

  lemma {:induction false} ParseLinesOf(entries: seq<(string, string)>)
    requires forall i :: 0 <= i < |entries| ==> PrintableDefine(entries[i].0, entries[i].1)
    ensures ParseDefines(LinesOf(entries)) == Some(entries)
  {
    if entries != [] {
      var key, value := entries[0].0, entries[0].1;
      var tail := LinesOf(entries[1..]);
      var s := LinesOf(entries);
      assert s == "#define " + key + " " + value + "\n" + tail;
      assert s[..8] == "#define ";
      assert s[8..] == key + [' '] + (value + ['\n'] + tail);
      SplitAtFirst(key, ' ', value + ['\n'] + tail);
      SplitAtFirst(value, '\n', tail);
      ParseLinesOf(entries[1..]);
      assert entries == [(key, value)] + entries[1..];
    }
  }

  /**
   * The define prefix is the `#define` line of every entry, in key order: reading it back
   * gives exactly the entries of `defines`.
   */
  lemma DefinePrefixRoundTrip(defines: Dict<string>)
    requires forall k :: k in defines.props ==> PrintableDefine(k, defines.props[k])
    ensures ParseDefines(DefinePrefix(defines)) == Some(Entries(defines))
  {
    var es := Entries(defines);
    DefinesUpToLines(defines, |defines.keys|);
    assert es[..|defines.keys|] == es;
    ParseLinesOf(es);
  }

  // ---------------------------------------------------------------------------
  // compileShader and initShader

  /**
   * The calls of `compileShader` for a shader `h` of `stage`: create, set the source, compile,
   * and delete the shader again when it did not compile.
   */
  function CompileTrace(stage: ShaderStage, source: string, h: Handle, compiled: bool): seq<Command> {
    [Command.CreateShader(stage, h), ShaderSource(h, source), Command.CompileShader(h)]
      + if compiled then [] else [DeleteShader(h)]
  }

  /**
   * `compileShader` always creates, sources and compiles the shader first, and deletes it
   * exactly when it did not compile, as its last call.
   */
  lemma CompileTracePolicy(stage: ShaderStage, source: string, h: Handle, compiled: bool)
    ensures var r := CompileTrace(stage, source, h, compiled);
      && |r| >= 3
      && r[..3] == [Command.CreateShader(stage, h), ShaderSource(h, source), Command.CompileShader(h)]
      && (DeleteShader(h) in r <==> !compiled)
      && forall c :: c in r && c.DeleteShader? ==> !compiled && c == r[|r| - 1]
  {
  }

  /** What `compileShader` returns for a shader `h` that did or did not compile. */
  function Compiled(h: Handle, compiled: bool): (r: Option<Handle>)
    ensures r.None? <==> !compiled
    ensures r.Some? ==> r.value == h
  {
    if compiled then Some(h) else None
  }

  /**
   * `compileShader(gl, stage, source)`: the new shader when it compiles; otherwise the
   * shader is deleted and the result is `null`.
   */
  method CompileShader(gl: GL, stage: ShaderStage, source: string) returns (shader: Option<Handle>)
    modifies gl
    ensures gl.created == old(gl.created) + 1
    ensures gl.log == old(gl.log) + CompileTrace(stage, source, Handle(old(gl.created)), gl.compiles(stage, source))
    ensures shader == Compiled(Handle(old(gl.created)), gl.compiles(stage, source))
  {
    var h := gl.NewShader(stage);
    gl.Issue(ShaderSource(h, source));
    gl.Issue(Command.CompileShader(h));
    if !gl.compiles(stage, source) {
      gl.Issue(DeleteShader(h));
      return None;
    }
    return Some(h);
  }

  /**
   * The calls of `initShader` when the context's next object is `Handle(first)`: both stages
   * compiled from the prefixed sources (`first`, `first + 1`), then a program (`first + 2`)
   * with both results attached, `null` for a stage that failed, and linked.
   */
  function InitShaderTrace(compiles: (ShaderStage, string) -> bool, prefix: string,
                           vs: string, fs: string, first: nat): seq<Command>
  {
    var vsOk := compiles(VertexShader, prefix + vs);
    var fsOk := compiles(FragmentShader, prefix + fs);
    CompileTrace(VertexShader, prefix + vs, Handle(first), vsOk)
      + CompileTrace(FragmentShader, prefix + fs, Handle(first + 1), fsOk)
      + LinkTrace(Handle(first + 2), Compiled(Handle(first), vsOk), Compiled(Handle(first + 1), fsOk))
  }

  /** Creating a program, attaching both stages' results and linking it. */
  function LinkTrace(program: Handle, vertexShader: Option<Handle>, fragmentShader: Option<Handle>): seq<Command> {
    [ CreateProgram(program),
      AttachShader(program, vertexShader),
      AttachShader(program, fragmentShader),
      LinkProgram(program) ]
  }

  /** The sources handed to `shaderSource`, in call order. */
  function Sources(cs: seq<Command>): seq<string> {
    if cs == [] then []
    else (if cs[0].ShaderSource? then [cs[0].source] else []) + Sources(cs[1..])
  }

  lemma {:induction false} SourcesAppend(a: seq<Command>, b: seq<Command>)
    ensures Sources(a + b) == Sources(a) + Sources(b)
  {
    if a == [] {
      assert a + b == b;
    } else {
      assert (a + b)[0] == a[0] && (a + b)[1..] == a[1..] + b;
      SourcesAppend(a[1..], b);
    }
  }

  lemma {:induction false} NoSources(cs: seq<Command>)
    requires forall i :: 0 <= i < |cs| ==> !cs[i].ShaderSource?
    ensures Sources(cs) == []
  {
    if cs != [] {
      NoSources(cs[1..]);
    }
  }

  lemma CompileTraceSources(stage: ShaderStage, source: string, h: Handle, compiled: bool)
    ensures Sources(CompileTrace(stage, source, h, compiled)) == [source]
  {
    var t := CompileTrace(stage, source, h, compiled);
    var t3 := [Command.CompileShader(h)] + if compiled then [] else [DeleteShader(h)];
    assert t == [Command.CreateShader(stage, h)] + ([ShaderSource(h, source)] + t3);
    SourcesAppend([Command.CreateShader(stage, h)], [ShaderSource(h, source)] + t3);
    SourcesAppend([ShaderSource(h, source)], t3);
    if compiled {
      assert Sources(t3) == [] by { assert t3[1..] == []; }
    } else {
      assert Sources(t3) == [] by { assert t3[1..] == [DeleteShader(h)]; assert t3[1..][1..] == []; }
    }
    assert Sources([ShaderSource(h, source)]) == [source] by { assert [ShaderSource(h, source)][1..] == []; }
    assert Sources([Command.CreateShader(stage, h)]) == [] by { assert [Command.CreateShader(stage, h)][1..] == []; }
  }

  /**
   * `initShader` compiles exactly two sources, the vertex source and then the fragment
   * source, each behind the same define prefix.
   */
  lemma InitShaderSources(compiles: (ShaderStage, string) -> bool, defines: Dict<string>,
                          vs: string, fs: string, first: nat)
    ensures Sources(InitShaderTrace(compiles, DefinePrefix(defines), vs, fs, first))
         == [DefinePrefix(defines) + vs, DefinePrefix(defines) + fs]
  {
    var prefix := DefinePrefix(defines);
    var vsOk := compiles(VertexShader, prefix + vs);
    var fsOk := compiles(FragmentShader, prefix + fs);
    var a := CompileTrace(VertexShader, prefix + vs, Handle(first), vsOk);
    var b := CompileTrace(FragmentShader, prefix + fs, Handle(first + 1), fsOk);
    var c := LinkTrace(Handle(first + 2), Compiled(Handle(first), vsOk), Compiled(Handle(first + 1), fsOk));
    SourcesAppend(a + b, c);
    SourcesAppend(a, b);
    CompileTraceSources(VertexShader, prefix + vs, Handle(first), vsOk);
    CompileTraceSources(FragmentShader, prefix + fs, Handle(first + 1), fsOk);
    NoSources(c);
  }

  /**
   * `initShader(gl, defines, vs, fs)`: the linked program, or `null` when linking fails.
   * Shaders that failed to compile are attached as `null`; nothing is released when linking fails.
   */
  method InitShader(gl: GL, defines: Dict<string>, vs: string, fs: string) returns (program: Option<Handle>)
    modifies gl
    ensures gl.created == old(gl.created) + 3
    ensures gl.log == old(gl.log) + InitShaderTrace(gl.compiles, DefinePrefix(defines), vs, fs, old(gl.created))
    ensures program.None? <==> !gl.links(Handle(old(gl.created) + 2))
    ensures program.Some? ==> program.value == Handle(old(gl.created) + 2)
  {
    ghost var log0, first := gl.log, gl.created;
    var defineStr := DefinePrefix(defines);
    var vertexShader := CompileShader(gl, VertexShader, defineStr + vs);
    ghost var logCompiled := gl.log;
    var fragmentShader := CompileShader(gl, FragmentShader, defineStr + fs);
    ghost var logBoth := gl.log;
    var shaderProgram := gl.NewProgram();
    gl.Issue(AttachShader(shaderProgram, vertexShader));
    gl.Issue(AttachShader(shaderProgram, fragmentShader));
    gl.Issue(LinkProgram(shaderProgram));
    assert gl.log == logBoth + LinkTrace(shaderProgram, vertexShader, fragmentShader);
    InitShaderSteps(gl.compiles, defineStr, vs, fs, first, log0, logCompiled, logBoth, gl.log,
                    vertexShader, fragmentShader, shaderProgram);
    if !gl.links(shaderProgram) {
      return None;
    }
    return Some(shaderProgram);
  }

  /** The three stages of `initShader`, each given by its own calls, make up its trace. */
  lemma InitShaderSteps(compiles: (ShaderStage, string) -> bool, prefix: string, vs: string, fs: string,
                        first: nat, log0: seq<Command>, log1: seq<Command>, log2: seq<Command>, log3: seq<Command>,
                        vertexShader: Option<Handle>, fragmentShader: Option<Handle>, program: Handle)
    requires log1 == log0 + CompileTrace(VertexShader, prefix + vs, Handle(first), compiles(VertexShader, prefix + vs))
    requires log2 == log1 + CompileTrace(FragmentShader, prefix + fs, Handle(first + 1), compiles(FragmentShader, prefix + fs))
    requires log3 == log2 + LinkTrace(program, vertexShader, fragmentShader)
    requires vertexShader == Compiled(Handle(first), compiles(VertexShader, prefix + vs))
    requires fragmentShader == Compiled(Handle(first + 1), compiles(FragmentShader, prefix + fs))
    requires program == Handle(first + 2)
    ensures log3 == log0 + InitShaderTrace(compiles, prefix, vs, fs, first)
  {
  }

  // ---------------------------------------------------------------------------
  // initShaderRefs

  /** An entry of the attribute table: the slot's type and its attribute location. */
  datatype AttributeRef = AttributeRef(slotType: SchemaType, location: int)

  /** An entry of the uniform table: the slot's type and its uniform location. */
  datatype UniformRef = UniformRef(slotType: SchemaType, location: Option<UniformLocation>)

  /** What `initShaderRefs` returns: `{ program, attributes, uniforms }`. */
  datatype ShaderRefs = ShaderRefs(
    program: Option<Handle>,
    attributes: Dict<AttributeRef>,
    uniforms: Dict<UniformRef>)

  /** One entry per buffer slot, in the schema's order, with the slot's type and its location in `program`. */
  function AttributeTable(buffers: Dict<BufferDecl>, attribLocation: (Option<Handle>, string) -> int,
                          program: Option<Handle>): (r: Dict<AttributeRef>)
    ensures r.keys == buffers.keys
    ensures forall k :: k in buffers.props ==>
      k in r.props && r.props[k] == AttributeRef(buffers.props[k].slotType, attribLocation(program, k))
  {
    MapValue(buffers, (k: string, decl: BufferDecl) => AttributeRef(decl.slotType, attribLocation(program, k)))
  }

  /**
   * One entry per uniform or texture slot: the uniform slots in the schema's order, then the
   * texture slots not named among them. A texture slot named like a uniform slot replaces it,
   * type and all, at the uniform slot's position.
   */
  function UniformTable(uniforms: Dict<UniformDecl>, textures: Dict<UniformDecl>,
                        uniformLocation: (Option<Handle>, string) -> Option<UniformLocation>,
                        program: Option<Handle>): (r: Dict<UniformRef>)
    ensures r.keys == uniforms.keys + KeysNotIn(textures.keys, uniforms.props)
    ensures forall k :: k in r.props <==> k in uniforms.props || k in textures.props
    ensures forall k :: k in textures.props ==>
      r.props[k] == UniformRef(textures.props[k].slotType, uniformLocation(program, k))
    ensures forall k :: k in uniforms.props && k !in textures.props ==>
      r.props[k] == UniformRef(uniforms.props[k].slotType, uniformLocation(program, k))
  {
    MapValue(Spread(uniforms, textures),
             (k: string, decl: UniformDecl) => UniformRef(decl.slotType, uniformLocation(program, k)))
  }

  /**
   * `initShaderRefs(gl, defines, schema, vs, fs)`: builds the program, then looks up every
   * buffer slot's attribute location and every uniform and texture slot's uniform location.
   */
  method InitShaderRefs(gl: GL, defines: Dict<string>, schema: Schema, vs: string, fs: string)
    returns (refs: ShaderRefs)
    modifies gl
    ensures gl.created == old(gl.created) + 3
    ensures gl.log == old(gl.log) + InitShaderTrace(gl.compiles, DefinePrefix(defines), vs, fs, old(gl.created))
    ensures refs.program == Compiled(Handle(old(gl.created) + 2), gl.links(Handle(old(gl.created) + 2)))
    ensures refs.attributes == AttributeTable(schema.buffers, gl.attribLocation, refs.program)
    ensures refs.uniforms == UniformTable(schema.uniforms, schema.textures, gl.uniformLocation, refs.program)
  {
    var program := InitShader(gl, defines, vs, fs);
    var attributes := AttributeTable(schema.buffers, gl.attribLocation, program);
    var uniforms := UniformTable(schema.uniforms, schema.textures, gl.uniformLocation, program);
    refs := ShaderRefs(program, attributes, uniforms);
  }
}
