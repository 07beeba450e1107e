/**
 * The enumerations of the library's public typings and the shapes of the values that
 * the WebGL helpers consume: shader schemas, JavaScript values handed to uniforms,
 * and image sources.
 */
module BeamTypes {
  import opened Wrappers
  import opened JsObject

  /** `SchemaTypes`, plus `Index`, the type `draw` tests buffer slots against to skip them. */
  datatype SchemaType =
    | Vec4 | Vec3 | Vec2 | Int | Float | Mat4 | Mat3 | Mat2 | Tex2D | TexCube
    | Index

  /** `ResourceTypes`: the five kinds of resource an engine hands out. */
  datatype ResourceType = DataBuffers | IndexBuffer | Uniforms | Textures | OffscreenTarget

  /** `GLTypes`: symbolic GL settings a schema or resource may name. */
  datatype GLType =
    | Triangles | Lines
    | Repeat | MirroredRepeat | ClampToEdge
    | Nearest | Linear
    | NearestMipmapNearest | LinearMipmapNearest | NearestMipmapLinear | LinearMipmapLinear
    | RGB | RGBA | SRGB

  /** Texture-typed slots are bound to texture units rather than uploaded as values. */
  predicate IsTexture(t: SchemaType) {
    t == Tex2D || t == TexCube
  }

  /**
   * The JavaScript values a uniform may hold: `undefined`, `null`, booleans, numbers,
   * strings and numeric arrays (plain or typed). NaN is not among the numbers.
   */
  datatype JsValue =
    | Undefined
    | Null
    | Bool(b: bool)
    | Num(x: real)
    | Str(s: string)
    | NumArray(elems: seq<real>)

  /** JavaScript truthiness: `undefined`, `null`, `false`, `0` and `""` are falsy; every array is truthy. */
  predicate Truthy(v: JsValue) {
    match v
    case Undefined => false
    case Null => false
    case Bool(b) => b
    case Num(x) => x != 0.0
    case Str(s) => s != ""
    case NumArray(_) => true
  }

  /** A buffer slot of a schema: its type and the optional component count `n`. */
  datatype BufferDecl = BufferDecl(slotType: SchemaType, n: Option<int>)

  /** A uniform or texture slot of a schema: its type and its optional `default` (`Undefined` when absent). */
  datatype UniformDecl = UniformDecl(slotType: SchemaType, defaultValue: JsValue)

  /** A shader schema: its three slot tables in declaration order and the optional draw mode. */
  datatype Schema = Schema(
    buffers: Dict<BufferDecl>,
    uniforms: Dict<UniformDecl>,
    textures: Dict<UniformDecl>,
    mode: Option<GLType>)

  /** An image source handed to a texture: its pixel size and its DOM node name (`"VIDEO"` for a video frame). */
  datatype Image = Image(width: int, height: int, nodeName: string)

  /** One entry of a textures resource's state: `{ image, flip, repeat }`, each of which may be absent. */
  datatype TextureEntry = TextureEntry(image: Option<Image>, flip: JsValue, repeat: JsValue)
}
