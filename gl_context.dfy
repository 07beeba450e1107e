/**
 * The WebGL rendering context, abstracted as an append-only log of the state-changing
 * calls made on it, a counter of the GL objects it has created, and an oracle that
 * answers what only a GPU driver can: compile and link status and the locations of
 * attributes and uniforms.
 */
module GlContext {
  import opened Wrappers
  import opened BeamTypes

  /** A GL object (shader, program, buffer or texture); `None` in a call stands for `null`. */
  datatype Handle = Handle(id: nat)

  /** A `WebGLUniformLocation`. */
  datatype UniformLocation = UniformLocation(id: nat)

  datatype ShaderStage = VertexShader | FragmentShader
  datatype BufferTarget = ArrayBuffer | ElementArrayBuffer
  datatype Usage = StaticDraw
  datatype TextureTarget = Texture2D | TextureCubeMap
  datatype PixelFormat = Rgba
  datatype PixelType = UnsignedByte
  datatype ComponentType = FloatComponents | UnsignedIntComponents
  datatype TexParam = WrapS | WrapT | MinFilter
  datatype TexParamValue = WrapClampToEdge | WrapRepeat | FilterLinear
  datatype Capability = DepthTest | Blend
  datatype BlendFactor = One | Zero | SrcAlpha | OneMinusSrcAlpha
  datatype DrawMode = TriangleList | LineList

  /** What `bufferData` uploads: a `Float32Array` or a `Uint32Array`, element by element. */
  datatype Payload = Float32Data(floats: seq<real>) | Uint32Data(indices: seq<int>)

  /** The state-changing calls the helpers make, with their arguments. */
  datatype Command =
    | CreateShader(stage: ShaderStage, handle: Handle)
    | ShaderSource(shader: Handle, source: string)
    | CompileShader(shader: Handle)
    | DeleteShader(shader: Handle)
    | CreateProgram(handle: Handle)
    | AttachShader(program: Handle, attached: Option<Handle>)
    | LinkProgram(program: Handle)
    | UseProgram(used: Option<Handle>)
    | Viewport(x: int, y: int, width: int, height: int)
    | ClearColor(red: real, green: real, blue: real, alpha: real)
    | ClearDepth(depth: real)
    | Clear(colorBuffer: bool, depthBuffer: bool)
    | Enable(cap: Capability)
    | BlendFunc(sfactor: BlendFactor, dfactor: BlendFactor)
    | CreateBuffer(handle: Handle)
    | BindBuffer(bufferTarget: BufferTarget, buffer: Option<Handle>)
    | BufferData(bufferTarget: BufferTarget, data: Payload, usage: Usage)
    | CreateTexture(handle: Handle)
    | ActiveTexture(unit: int)
    | BindTexture(textureTarget: TextureTarget, texture: Option<Handle>)
    | PixelStoreFlipY(flipY: bool)
    | TexImage2D(textureTarget: TextureTarget, level: int, internalFormat: PixelFormat,
                 format: PixelFormat, pixelType: PixelType, image: Option<Image>)
    | GenerateMipmap(textureTarget: TextureTarget)
    | TexParameteri(textureTarget: TextureTarget, pname: TexParam, param: TexParamValue)
    | VertexAttribPointer(index: int, size: int, componentType: ComponentType,
                          normalized: bool, stride: int, offset: int)
    | EnableVertexAttribArray(index: int)
    | Uniform1i(location: Option<UniformLocation>, value: JsValue)
    | Uniform1iv(location: Option<UniformLocation>, value: JsValue)
    | Uniform1f(location: Option<UniformLocation>, value: JsValue)
    | Uniform1fv(location: Option<UniformLocation>, value: JsValue)
    | Uniform2fv(location: Option<UniformLocation>, value: JsValue)
    | Uniform3fv(location: Option<UniformLocation>, value: JsValue)
    | Uniform4fv(location: Option<UniformLocation>, value: JsValue)
    | UniformMatrix2fv(location: Option<UniformLocation>, transpose: bool, value: JsValue)
    | UniformMatrix3fv(location: Option<UniformLocation>, transpose: bool, value: JsValue)
    | UniformMatrix4fv(location: Option<UniformLocation>, transpose: bool, value: JsValue)
    | DrawElements(mode: DrawMode, count: int, indexType: ComponentType, byteOffset: int)

  /**
   * A rendering context. `log` is every state-changing call made so far, oldest first;
   * `created` counts the objects created so far, so the next one is `Handle(created)`.
   * The const fields are the oracle: the canvas size and the driver's answers.
   */
  class GL {
    var log: seq<Command>
    var created: nat
    const canvasWidth: int
    const canvasHeight: int
    /** `getShaderParameter(shader, COMPILE_STATUS)` for a shader of that stage compiled from that source. */
    const compiles: (ShaderStage, string) -> bool
    /** `getProgramParameter(program, LINK_STATUS)` after `linkProgram(program)`. */
    const links: Handle -> bool
    /** `getAttribLocation(program, name)`; -1 when the attribute is not active. */
    const attribLocation: (Option<Handle>, string) -> int
    /** `getUniformLocation(program, name)`; `None` (`null`) when the uniform is not active. */
    const uniformLocation: (Option<Handle>, string) -> Option<UniformLocation>

    constructor (canvasWidth: int, canvasHeight: int,
                 compiles: (ShaderStage, string) -> bool,
                 links: Handle -> bool,
                 attribLocation: (Option<Handle>, string) -> int,
                 uniformLocation: (Option<Handle>, string) -> Option<UniformLocation>)
      ensures log == [] && created == 0
      ensures this.canvasWidth == canvasWidth && this.canvasHeight == canvasHeight
      ensures this.compiles == compiles && this.links == links
      ensures this.attribLocation == attribLocation && this.uniformLocation == uniformLocation
    {
      log := [];
      created := 0;
      this.canvasWidth := canvasWidth;
      this.canvasHeight := canvasHeight;
      this.compiles := compiles;
      this.links := links;
      this.attribLocation := attribLocation;
      this.uniformLocation := uniformLocation;
    }

    /** Makes one state-changing call that creates nothing. */
    method Issue(c: Command)
      modifies this
      ensures log == old(log) + [c]
      ensures created == old(created)
    {
      log := log + [c];
    }

    /** `createShader(stage)`. */
    method NewShader(stage: ShaderStage) returns (h: Handle)
      modifies this
      ensures h == Handle(old(created)) && created == old(created) + 1
      ensures log == old(log) + [Command.CreateShader(stage, h)]
    {
      h := Handle(created);
      created := created + 1;
      log := log + [Command.CreateShader(stage, h)];
    }

    /** `createProgram()`. */
    method NewProgram() returns (h: Handle)
      modifies this
      ensures h == Handle(old(created)) && created == old(created) + 1
      ensures log == old(log) + [Command.CreateProgram(h)]
    {
      h := Handle(created);
      created := created + 1;
      log := log + [Command.CreateProgram(h)];
    }

    /** `createBuffer()`. */
    method NewBuffer() returns (h: Handle)
      modifies this
      ensures h == Handle(old(created)) && created == old(created) + 1
      ensures log == old(log) + [Command.CreateBuffer(h)]
    {
      h := Handle(created);
      created := created + 1;
      log := log + [Command.CreateBuffer(h)];
    }

    /** `createTexture()`. */
    method NewTexture() returns (h: Handle)
      modifies this
      ensures h == Handle(old(created)) && created == old(created) + 1
      ensures log == old(log) + [Command.CreateTexture(h)]
    {
      h := Handle(created);
      created := created + 1;
      log := log + [Command.CreateTexture(h)];
    }
  }
}
