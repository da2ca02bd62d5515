/**
 * The engine-side values the texture loaders exchange with the asset
 * manager: keys, textures, wrap modes and load outcomes.
 */
module Assets {

  /** Texture.WrapMode, the two modes the loaders set. */
  datatype WrapMode = Repeat | EdgeClamp

  /** TextureKey: the asset name and whether mip-maps are generated. */
  datatype TextureKey = TextureKey(name: string, generateMips: bool)

  /** An opaque handle for image data the asset manager produced. */
  datatype Asset = Asset(id: nat)

  /** What one call of the asset manager's loadTexture does. */
  datatype LoadOutcome =
    | Found(asset: Asset)   // returns a texture
    | Null                  // returns null
    | NotFound              // throws AssetNotFoundException

  /** A loaded texture with the wrap mode applied. */
  datatype Texture = Texture(asset: Asset, key: TextureKey, wrap: WrapMode)

  /** The exceptions a texture load can end in. */
  datatype LoadError =
    | TextureError(message: string)   // the loader's own RuntimeException, whose message names the requested path
    | AssetNotFound(name: string)     // AssetNotFoundException from the asset manager
    | NullPointer                     // dereference of an unset density bucket

  /** The result of loadTexture / loadTextureDP. */
  datatype TextureLoad = Loaded(texture: Texture) | Failed(error: LoadError)

  /** The asset manager, as the caller supplies it. */
  type Loader = TextureKey -> LoadOutcome

  /** Repeat when `repeat` is set, EdgeClamp otherwise. */
  function WrapFor(repeat: bool): (w: WrapMode)
    ensures w == Repeat <==> repeat
  {
    if repeat then Repeat else EdgeClamp
  }

  /** The message both loaders throw on a path they cannot serve. */
  function LoadErrorMessage(path: string): (m: string)
    ensures |m| >= |path| && m[|m| - |path|..] == path
  {
    "Error loading texture:" + path
  }
}
