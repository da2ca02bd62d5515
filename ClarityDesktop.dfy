/**
 * The desktop platform variant (ClarityDesktop.java): fixed start-up
 * values and a texture load that probes the requested path only.
 */
module Desktop {
  import opened Assets
  import Clarity
  import Probing

  class ClarityDesktop {
    /** The shared configuration this platform fills in. */
    const base: Clarity.AClarity

    constructor (preload: string)
      ensures fresh(base)
      ensures base.State() == Clarity.Settings(0.0, 0.0, 0, false, false, false, true, 2048, false, false, preload)
    {
      base := new Clarity.AClarity(preload);
    }

    /**
     * initPlatform, with the renderer's GLSL 1.10 capability passed in:
     * neither mobile nor Android, 72 DPI, both scale modifiers 1, and
     * derivatives available exactly when GLSL 1.10 is.
     */
    method InitPlatform(glsl110: bool)
      modifies base
      ensures base.State() == old(base.State()).(isMobile := false, isAndroid := false, dpiMod := 1.0, dpi := 72,
                                                 relDpiMod := 1.0, derivativeSupported := glsl110,
                                                 actualDerivativeSupported := glsl110)
      ensures base.actualDerivativeSupported == base.derivativeSupported
    {
      base.isMobile := false;
      base.isAndroid := false;
      base.dpiMod := 1.0;
      base.dpi := 72;
      base.relDpiMod := 1.0;
      base.derivativeSupported := glsl110;
      base.actualDerivativeSupported := base.derivativeSupported;
    }

    /**
     * loadTexture: one probe of the path as given, with the caller's mip
     * flag; a null answer throws with the path, a not-found propagates.
     * It is the density search cut down to that single probe, with
     * not-found uncaught.
     */
    method LoadTexture(path: string, repeat: bool, generateMips: bool, load: Loader)
      returns (r: TextureLoad, probed: seq<TextureKey>)
      ensures probed == [TextureKey(path, generateMips)]
      ensures var o := load(TextureKey(path, generateMips));
        && (o.Found? <==> r.Loaded?)
        && (o.Found? ==> r.texture == Texture(o.asset, TextureKey(path, generateMips), WrapFor(repeat)))
        && (o.Null? ==> r == Failed(TextureError(LoadErrorMessage(path))))
        && (o.NotFound? ==> r == Failed(AssetNotFound(path)))
      ensures Probing.Resolution(r, probed) ==
        Probing.Conclude(path, Probing.RunPlan(load, [Probing.Probe(path, false)], repeat, generateMips))
    {
      var key := TextureKey(path, generateMips);
      probed := [key];
      match load(key) {
        case NotFound =>
          return Failed(AssetNotFound(key.name)), probed;
        case Null =>
          return Failed(TextureError(LoadErrorMessage(path))), probed;
        case Found(t) =>
          var wrap := WrapFor(repeat);
          r := Loaded(Texture(t, key, wrap));
      }
    }

    /** loadTextureDP: on the desktop, exactly loadTexture. */
    method LoadTextureDP(path: string, repeat: bool, generateMips: bool, load: Loader)
      returns (r: TextureLoad, probed: seq<TextureKey>)
      ensures probed == [TextureKey(path, generateMips)]
      ensures Probing.Resolution(r, probed) ==
        Probing.Conclude(path, Probing.RunPlan(load, [Probing.Probe(path, false)], repeat, generateMips))
    {
      r, probed := LoadTexture(path, repeat, generateMips, load);
    }
  }
}
