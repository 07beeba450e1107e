# beam `gl-utils` in Dafny

This project models the WebGL helper layer of beam (`src/utils/gl-utils.js`): the functions
that turn a shader schema and typed resources into rendering-context calls. It covers
compiling and linking a program with a `#define` prefix (`compileShader`, `initShader`),
building the attribute and uniform location tables (`initShaderRefs`), clearing the canvas
(`clear`), uploading vertex, index and texture resources (`initDataBuffers`,
`initIndexBuffer`, `initTextures`) and one draw of a shader plugin (`padDefault`, `draw`).

The rendering context is the class `GlContext.GL`. Its `log` field records every
state-changing call, oldest first. Its `created` counter names the next shader, program,
buffer or texture object. Its constant fields answer the queries the helpers make: compile
status, link status, attribute and uniform locations, and canvas size. The class's own
methods (`Issue`, `NewShader`, `NewProgram`, `NewBuffer`, `NewTexture`) make one call each.
Each helper of `gl-utils.js` is a module-level method that takes the context as a
parameter `gl: GL` and changes it through those methods. Each helper's contract ties the
new log to a specification function of its inputs, for example `ResourceStore.DataBuffersTrace` or `Draw.DrawTrace`.
`GlStateModel.Run` interprets a log as the context state it produces. That gives a second,
semantic reading of each trace: which buffer holds which data, which parameters each texture
has, and what is bound when the elements are drawn.

JavaScript objects whose key order matters are `JsObject.Dict`: a key sequence without
duplicates plus a map. `Spread` is `{...a, ...b}`, `MapValue` is `mapValue`, and `Entries`
is `Object.keys(o).map(k => [k, o[k]])`.

`src/utils/misc-utils.js` is not part of this model. Its three helpers are modelled as
follows:
- `isPowerOf2(n)` holds exactly when `n` is `2^k` for some `k >= 0` (`MiscUtils.IsPowerOf2`, proved equivalent to that by `IsPowerOf2Exactly`).
- `getNumComponents(type)` is 4 for `vec4`, 3 for `vec3`, 2 for `vec2` and 1 for every other type.
- `mapValue(obj, f)` keeps the keys of `obj` in order and maps each value with `f(obj, key)`.

Behaviour of the code that the model follows as written:
- `draw` uses `LINES` for every mode other than `triangles`, including an absent mode. Defaulting the mode to triangles happens outside this file.
- `draw` passes attribute location `-1` and uniform location `null` to the context unchanged. It never checks them.
- A cube-texture slot always binds `null` on its unit.
- `initShader` attaches whatever `compileShader` returned, which may be `null`. On failure it deletes neither the shaders nor the program.
- `initTextures` only ever sets `UNPACK_FLIP_Y_WEBGL` to true. Once one entry asks for flipped rows, every later upload on the same context is flipped as well. `ResourceStore.TextureDone` states this with `FlipRequested`.
- A uniform key that throws a `TypeError` leaves behind the calls made before it and skips the draw. Among the throws raised by the code of `gl-utils.js` itself, this happens exactly for a key that is not a texture slot and either has no value and no slot in `schema.uniforms`, or has a value to upload (its own or its schema default) but a type with no setter (the index type). Texture slots never throw, and a key whose value and default are both `undefined` uploads nothing and does not throw. `Draw.DrawPlugin` returns `ok == false` in that case. Throws raised by the browser's argument checks are not modelled (see "## Left out").
- Padded defaults are uploaded on every draw.

## Model

| member | source | states |
|---|---|---|
| JsObject.Get | src/utils/gl-utils.js:154 | reading `o[k]` finds a value exactly when `k` is a key, and it is the stored value |
| JsObject.Put | src/utils/gl-utils.js:85 | assigning `o[k] = v` appends `k` to the key order only when it is new and updates the value |
| JsObject.Spread | src/utils/gl-utils.js:57-58 | `{...a, ...b}` keeps `a`'s key order, then `b`'s new keys; `b`'s value wins on shared keys, and no other key appears |
| JsObject.MapValue | src/utils/gl-utils.js:53-56 | `mapValue` keeps the key order and maps every value by the callback |
| MiscUtils.IsPowerOf2Exactly | src/utils/gl-utils.js:114-117 | the power-of-two test holds exactly for `2^k` |
| MiscUtils.NumComponents | src/utils/gl-utils.js:152 | the default component count is 4, 3 or 2 exactly for `vec4`, `vec3`, `vec2`, and 1 otherwise |
| ShaderCompiler.DefinePrefixRoundTrip | src/utils/gl-utils.js:30-32 | for keys without a space and values without a newline, the `#define key value` prefix parses back to exactly the defines, in key order; `DefinesUpToLines` states the concatenation itself for all inputs |
| ShaderCompiler.CompileTracePolicy | src/utils/gl-utils.js:16-27 | a compile creates, sources and compiles the shader first, then deletes it exactly when compilation failed, as its last call |
| ShaderCompiler.Compiled | src/utils/gl-utils.js:21-26 | `compileShader` returns `null` exactly when compilation failed, else the new shader |
| ShaderCompiler.CompileShader | src/utils/gl-utils.js:16-27 | one new shader; its calls are those of `CompileTrace`; the result is `null` exactly on a failed compile |
| ShaderCompiler.InitShaderSources | src/utils/gl-utils.js:29-35 | the only sources handed to the context are the define prefix plus the vertex source, then the prefix plus the fragment source |
| ShaderCompiler.InitShader | src/utils/gl-utils.js:29-48 | two shaders and one program are created; the program gets both compile results attached and is linked; the result is `null` exactly when linking fails, else the program |
| ShaderCompiler.AttributeTable | src/utils/gl-utils.js:53-56 | one attribute entry per buffer slot, in slot order, with the slot's type and its location in the program |
| ShaderCompiler.UniformTable | src/utils/gl-utils.js:57-62 | one entry per uniform or texture slot, in spread order; a texture slot overrides a uniform slot of the same name |
| ShaderCompiler.InitShaderRefs | src/utils/gl-utils.js:50-65 | the program is the link result, and the two tables are built against it |
| ResourceStore.ClearPolicy | src/utils/gl-utils.js:67-76 | after `clear`, the viewport is the whole canvas, the clear colour is the given one, depth test and blending are on with source-alpha blending, and no other modelled state changed (the clear depth is not part of `GlState`) |
| ResourceStore.Clear | src/utils/gl-utils.js:67-76 | `clear` makes exactly the calls of `ClearTrace` for the canvas size and creates nothing |
| ResourceStore.NumberedHandlesDistinct | src/utils/gl-utils.js:78-90 | distinct keys of a result get distinct objects |
| ResourceStore.DataBuffersUploaded | src/utils/gl-utils.js:78-90 | after `initDataBuffers` the buffer of each key holds that key's array as 32-bit floats with `STATIC_DRAW`, whatever the state was before |
| ResourceStore.UploadBuffer | src/utils/gl-utils.js:82-87 | one new buffer, bound as the array buffer and filled with the data |
| ResourceStore.InitDataBuffers | src/utils/gl-utils.js:78-90 | one new buffer per key, in key order; the result maps the `j`-th key to the `j`-th new buffer; the calls are those of `DataBuffersTrace` |
| ResourceStore.IndexBufferUploaded | src/utils/gl-utils.js:92-100 | after `initIndexBuffer` the new buffer is the element buffer and holds the indices as 32-bit unsigned integers with `STATIC_DRAW` |
| ResourceStore.InitIndexBuffer | src/utils/gl-utils.js:92-100 | one new buffer; the calls are those of `IndexBufferTrace` |
| ResourceStore.TextureCommandsPolicy | src/utils/gl-utils.js:105-131 | mipmaps are generated exactly for a power-of-two, non-video image; REPEAT is set exactly when such an image asks for it; LINEAR minification exactly otherwise; rows are flipped exactly when `flip` is truthy, and never unflipped |
| ResourceStore.TexturesConfigured | src/utils/gl-utils.js:102-135 | after `initTextures` every key's texture holds its image, flipped as the flag then stood, with the wrap mode `ExpectedWrap`, LINEAR minification when ineligible, and mipmaps exactly when eligible; only texture state changes |
| ResourceStore.UploadTexture | src/utils/gl-utils.js:105-131 | one new texture, bound on unit 0, with the calls of `TextureCommands` |
| ResourceStore.SetSampling | src/utils/gl-utils.js:114-131 | the filtering and wrapping calls are those of `SamplingCommands` |
| ResourceStore.InitTextures | src/utils/gl-utils.js:102-135 | one new texture per key, in key order; the result maps the `j`-th key to the `j`-th new texture; the calls are those of `TexturesTrace` |
| Draw.FailureStops | src/utils/gl-utils.js:162-206 | after a uniform key throws, later keys make no calls |
| Draw.SetAttribute | src/utils/gl-utils.js:147-156 | a key with no buffer slot, or with the index slot, makes no call; any other key binds its data buffer, points its location at it with `n` or the default component count, and enables the location |
| Draw.SetAttributes | src/utils/gl-utils.js:146-157 | the attribute keys make the calls of `AttribTrace`, in key order |
| Draw.SetUniform | src/utils/gl-utils.js:163-205 | one uniform key makes the calls of `SlotStep` and moves the texture unit as it says |
| Draw.SetUniforms | src/utils/gl-utils.js:161-206 | the uniform keys make the calls of `UniformPass`, in key order, and stop at the first that throws |
| Draw.SetHead | src/utils/gl-utils.js:145-159 | the program is selected, the attributes are set up and the index buffer is bound, in that order |
| Draw.DrawPlugin | src/utils/gl-utils.js:141-210 | `draw` makes exactly the calls of `DrawTrace`, creates nothing, and completes exactly when no uniform key throws |
| DrawProperties.SetterShape | src/utils/gl-utils.js:170-186 | `int` and `float` slots use the scalar setter exactly for falsy, number or string values, and the array setter otherwise; vector setters match the type's component count; matrices are never transposed; only the index type has no setter; every setter uploads the value at the slot's location |
| DrawProperties.UniformResolution | src/utils/gl-utils.js:163-205 | through `padDefault` (gl-utils.js:137-139, modelled by `Draw.PadDefault`), a value slot uses its explicit value, else its schema default, else it throws; a value left `undefined` uploads nothing; otherwise exactly one call uploads the chosen value; the texture unit does not move |
| DrawProperties.TextureSlot | src/utils/gl-utils.js:187-202 | a texture slot takes the next unit, sets the sampler to it, activates it, and binds its texture there (`null` for a cube slot) |
| DrawProperties.UniformPassOk | src/utils/gl-utils.js:162-206 | the uniform pass completes exactly when no key meets `SlotError`: a non-texture key with neither a value nor a `schema.uniforms` slot, or with a value or default to upload and no setter |
| DrawProperties.TextureUnits | src/utils/gl-utils.js:161-202 | texture units count only texture slots, from 0 |
| DrawProperties.TextureCountGrows | src/utils/gl-utils.js:187-202 | an earlier texture slot gets a smaller unit than any later one |
| DrawProperties.UniformPassEffect | src/utils/gl-utils.js:161-206 | a completed uniform pass changes no modelled state but the texture state (uniform values are not part of `GlState`; their uploads are stated on the calls by `SetterShape`, `UniformResolution` and `TextureSlot`), and leaves each texture slot's texture bound on its own unit |
| DrawProperties.AttributesEffect | src/utils/gl-utils.js:146-157 | the attribute calls enable exactly the set-up locations; each set-up key that no later set-up key shares a location with has its location pointing at its data buffer with its component count; only the array-buffer binding and the attributes change |
| DrawProperties.DrawOrder | src/utils/gl-utils.js:141-210 | the program is selected first and only there; the index buffer is bound after every attribute call and before every uniform call; the elements are drawn once, last, exactly when no key threw, as triangles exactly for the triangles mode, with the index count and a byte offset of four times the index offset |
| DrawProperties.StateAtDraw | src/utils/gl-utils.js:141-210 | at the draw call the plugin's program is in use, the index buffer is bound, buffer contents are untouched, the set-up locations are enabled, each pointing at the data buffer and component count of the last set-up key that has it, and every texture slot's texture is bound on its unit |

## Left out

- `getWebGLInstance` and `getExtensions` (lines 4-14) are left out. They create a browser context and look up extensions; the model's context is given as a `GL` value.
- Console output (`console.error` in `compileShader` and `initShader`, `console.warn` in `draw`) is not modelled.
- GPU effects are not modelled. The model records what `clear`, `clearDepth`, compilation and `drawElements` are asked to do, not the pixels or the compiled code.
- The context's argument checking is not modelled. This covers location `-1`, a `null` program, and unit numbers beyond the hardware limit. It also covers the `TypeError`s a browser's WebGL bindings throw: `attachShader(program, null)` after a failed compile (gl-utils.js:38-39), and a value that is not a sequence passed to an array setter such as `uniform4fv(loc, 0.5)` or `uniform1fv(loc, true)` (gl-utils.js:171-186). So the "exactly when" results of `ShaderCompiler.InitShader` and `DrawProperties.UniformPassOk` describe a context that accepts every argument; a browser would throw in those two places as well. Compile status, link status and locations are answers of the `GL` value.
- `ResourceStore.UploadBuffer`: the `Float32Array` conversion is not modelled. The data are exact reals, so float rounding is not captured.
- `ResourceStore.InitIndexBuffer`: the `Uint32Array` conversion is not modelled. Indices are unbounded integers, so wrap-around modulo 2^32 is not captured.
- `ResourceStore.InitDataBuffers` and `ResourceStore.InitIndexBuffer`: the `instanceof Float32Array` and `instanceof Uint32Array` reuse is not modelled. A typed array and a copy of it are the same value here.
- `Draw.DrawPlugin` and `ResourceStore.UploadTexture`: `activeTexture` receives the unit number rather than `TEXTURE0 + unit`; `ActiveTexture(0)` stands for `gl.activeTexture(gl.TEXTURE0)` (gl-utils.js:106).
- `DrawProperties.AttributesEffect` and `DrawProperties.StateAtDraw`: a pointer is stated only for a key whose location no later set-up key shares. Where several keys share a location (for example several inactive attributes at `-1`), only the last one's pointer is stated, because it replaces the earlier ones.
- `defines` values are taken as strings, while the template literal at gl-utils.js:31 converts any value to a string. `clear`'s colour array `[r, g, b, a]` (gl-utils.js:68) is a `Color` record; missing or extra elements are not modelled.
- `GlStateModel` does not track uniform values or the clear depth: `Apply` leaves the state unchanged for every `uniform*` call and for `clearDepth`. Uniform uploads are stated on the call sequence instead, by `DrawProperties.UniformResolution`, `DrawProperties.SetterShape` and `DrawProperties.TextureSlot`, so `DrawProperties.StateAtDraw` says nothing about the uniform values in force at the draw.
- `JsObject.Get` and `JsObject.Put`: reads and writes see own keys only. Names inherited from `Object.prototype` (`constructor`, `toString`, `valueOf`, …) and `__proto__` are not modelled: in JavaScript `dataBuffers["constructor"]` (gl-utils.js:154) is the function `Object`, `schema.uniforms["toString"].default` (gl-utils.js:138) is `undefined` rather than a `TypeError`, and assigning `o["__proto__"]` adds no key.
- `Object.keys` puts integer-like keys first in ascending order. The model takes key order as given.
- JavaScript values are limited to `undefined`, `null`, booleans, numbers without NaN, strings and numeric arrays. Plain objects and NaN are not modelled.

