/**
 * The platform-independent configuration object (AClarity.java): the
 * shared density and font settings, their setters and getters, and the
 * pure decisions behind font-style parsing, material dispatch and font
 * point-size selection. Engine loads are returned as the request they make.
 */
module Clarity {
  import opened Strings

  /** com.atr.jme.font.util.Style. */
  datatype Style = Plain | Bold | Italic | BoldItalic

  /** A font scale: 1, or the quotient num / den that setScale receives. */
  datatype Scale = Unscaled | Ratio(num: int, den: int)

  /** The point size actually requested from the font loader and the scale applied afterwards. */
  datatype SizeChoice = SizeChoice(actualSize: int, scale: Scale)

  /** The TrueTypeKeyBMP a bitmap-font load asks for. */
  datatype BmpFontKey = BmpFontKey(
    path: string, style: Style, pointSize: int, outline: int, dpi: int,
    weakReference: bool, preload: string, maxResolution: int)

  /** A bitmap-font load: its key, then setScale and lock on the loaded font. */
  datatype BmpFontLoad = BmpFontLoad(key: BmpFontKey, scale: Scale, locked: bool)

  /** The TrueTypeKeyMesh a mesh-font load asks for. */
  datatype MeshFontKey = MeshFontKey(
    path: string, style: Style, pointSize: int, dpi: int, weakReference: bool, preload: string)

  /** A mesh-font load: its key, then setScale and lock on the loaded font. */
  datatype MeshFontLoad = MeshFontLoad(key: MeshFontKey, scale: Scale, locked: bool)

  /** What loadMaterial asks the engine for. */
  datatype MaterialLoad =
    | FromJ3m(path: string)            // assets.loadMaterial(path)
    | FromDefinition(definition: string)  // new Material(assets, path)

  /** Every field of the configuration, as one value. */
  datatype Settings = Settings(
    dpiMod: real, relDpiMod: real, dpi: int,
    isMobile: bool, isAndroid: bool,
    actualDerivativeSupported: bool, derivativeSupported: bool,
    maxTrueTypeResolution: int, lockTrueType: bool, strongTrueType: bool,
    trueTypePreload: string)

  /** The DPI the density-independent overloads pass. */
  const DefaultDpi: int := 72

  /** fontStyle: case-insensitive names; anything unrecognised is Plain. */
  function FontStyle(style: string): (r: Style)
    ensures r == BoldItalic <==> ToLower(style) == "bolditalic" || ToLower(style) == "italicbold"
    ensures r == Bold <==> ToLower(style) == "bold"
    ensures r == Italic <==> ToLower(style) == "italic"
  {
    match ToLower(style)
    case "plain" => Plain
    case "bold" => Bold
    case "italic" => Italic
    case "bolditalic" => BoldItalic
    case "italicbold" => BoldItalic
    case _ => Plain
  }

  /** Lower-casing the name first never changes the style, so the mapping ignores case. */
  lemma FontStyleIgnoresCase(style: string)
    ensures FontStyle(ToLower(style)) == FontStyle(style)
  {
    ToLowerIdempotent(style);
  }

  /** "BoldItalic" names the combined style. */
  lemma FontStyleMixedCase()
    ensures FontStyle("BoldItalic") == BoldItalic
  {
    LowersTo("BoldItalic", "bolditalic");
  }

  /** So does "ItalicBold", the other order. */
  lemma FontStyleOtherOrder()
    ensures FontStyle("ItalicBold") == BoldItalic
  {
    LowersTo("ItalicBold", "italicbold");
  }

  /** An unrecognised name falls back to Plain. */
  lemma FontStyleUnknown()
    ensures FontStyle("Heavy") == Plain
  {
    LowersTo("Heavy", "heavy");
  }

  /** Checks a lower-casing character by character. */
  lemma LowersTo(s: string, t: string)
    requires |s| == |t| && forall i :: 0 <= i < |s| ==> LowerChar(s[i]) == t[i]
    ensures ToLower(s) == t
  {
  }

  /** loadMaterial: a path ending in ".j3m" in any case is a material file, anything else a definition. */
  function LoadMaterial(path: string): (r: MaterialLoad)
    ensures r.FromJ3m? <==> EndsWith(ToLower(path), ".j3m")
    ensures r.FromJ3m? ==> r.path == path
    ensures r.FromDefinition? ==> r.definition == path
  {
    if EndsWith(ToLower(path), ".j3m") then FromJ3m(path) else FromDefinition(path)
  }

  /** The dispatch depends on the path only up to case. */
  lemma LoadMaterialIgnoresCase(path: string)
    ensures LoadMaterial(ToLower(path)).FromJ3m? == LoadMaterial(path).FromJ3m?
  {
    ToLowerIdempotent(path);
  }

  /**
   * The point-size remap of loadFont off mobile: below 32 the size is
   * divided by 0.73, from 32 to 52 by 0.84 (both floored), from 53 on and on
   * mobile it is kept; the font is then scaled back by pointSize / actualSize.
   */
  function RemapPointSize(pointSize: int, isMobile: bool): (c: SizeChoice)
    ensures isMobile || pointSize >= 53 ==> c == SizeChoice(pointSize, Unscaled)
    ensures !isMobile && pointSize < 32 ==>
      73 * c.actualSize <= 100 * pointSize < 73 * (c.actualSize + 1) && c.scale == Ratio(pointSize, c.actualSize)
    ensures !isMobile && 32 <= pointSize < 53 ==>
      84 * c.actualSize <= 100 * pointSize < 84 * (c.actualSize + 1) && c.scale == Ratio(pointSize, c.actualSize)
  {
    if isMobile then SizeChoice(pointSize, Unscaled)
    else if pointSize < 32 then
      var a := (100 * pointSize) / 73; SizeChoice(a, Ratio(pointSize, a))
    else if pointSize < 53 then
      var a := (100 * pointSize) / 84; SizeChoice(a, Ratio(pointSize, a))
    else SizeChoice(pointSize, Unscaled)
  }

  /** The remap never asks for a smaller size than requested, and for a positive size never for zero. */
  lemma RemapNeverShrinks(pointSize: int, isMobile: bool)
    requires pointSize >= 0
    ensures RemapPointSize(pointSize, isMobile).actualSize >= pointSize
    ensures pointSize > 0 ==> RemapPointSize(pointSize, isMobile).actualSize > 0
  {
  }

  /** The remap at both ends of each band. */
  lemma RemapExamples()
    ensures RemapPointSize(12, false) == SizeChoice(16, Ratio(12, 16))
    ensures RemapPointSize(31, false) == SizeChoice(42, Ratio(31, 42))
    ensures RemapPointSize(32, false) == SizeChoice(38, Ratio(32, 38))
    ensures RemapPointSize(52, false) == SizeChoice(61, Ratio(52, 61))
    ensures RemapPointSize(53, false) == SizeChoice(53, Unscaled)
    ensures RemapPointSize(12, true) == SizeChoice(12, Unscaled)
  {
  }

  /** The shared configuration; the platform classes hold one and fill it in at start-up. */
  class AClarity {
    var dpiMod: real
    var relDpiMod: real
    var dpi: int
    var isMobile: bool
    var isAndroid: bool
    var actualDerivativeSupported: bool
    var derivativeSupported: bool
    var maxTrueTypeResolution: int
    var lockTrueType: bool
    var strongTrueType: bool
    var trueTypePreload: string

    /** The whole configuration as a value. */
    function State(): Settings
      reads this
    {
      Settings(dpiMod, relDpiMod, dpi, isMobile, isAndroid,
               actualDerivativeSupported, derivativeSupported,
               maxTrueTypeResolution, lockTrueType, strongTrueType, trueTypePreload)
    }

    /** The field initialisers, with the preload characters read from the preload text asset. */
    constructor (preload: string)
      ensures State() == Settings(0.0, 0.0, 0, false, false, false, true, 2048, false, false, preload)
    {
      dpiMod, relDpiMod, dpi := 0.0, 0.0, 0;
      isMobile, isAndroid := false, false;
      actualDerivativeSupported, derivativeSupported := false, true;
      maxTrueTypeResolution := 2048;
      lockTrueType, strongTrueType := false, false;
      trueTypePreload := preload;
    }

    /** Derivatives can be switched only where the device really supports them. */
    method SetSupportDerivatives(support: bool)
      modifies this
      ensures State() == if old(actualDerivativeSupported) then old(State()).(derivativeSupported := support) else old(State())
      ensures IsSupportDerivatives() == if old(actualDerivativeSupported) then support else old(IsSupportDerivatives())
    {
      if !actualDerivativeSupported {
        return;
      }
      derivativeSupported := support;
    }

    /** Whether derivative support is enabled: the configuration's flag. */
    function IsSupportDerivatives(): (b: bool)
      reads this
      ensures b == State().derivativeSupported
    {
      derivativeSupported
    }

    method SetTrueTypePreloadCharacters(characters: string)
      modifies this
      ensures State() == old(State()).(trueTypePreload := characters)
      ensures GetTrueTypePreloadCharacters() == characters
    {
      trueTypePreload := characters;
    }

    function GetTrueTypePreloadCharacters(): (x: string)
      reads this
      ensures x == State().trueTypePreload
    {
      trueTypePreload
    }

    method SetLockTrueType(lock: bool)
      modifies this
      ensures State() == old(State()).(lockTrueType := lock)
      ensures GetLockTrueType() == lock
    {
      lockTrueType := lock;
    }

    function GetLockTrueType(): (x: bool)
      reads this
      ensures x == State().lockTrueType
    {
      lockTrueType
    }

    method KeepTrueType(keep: bool)
      modifies this
      ensures State() == old(State()).(strongTrueType := keep)
      ensures IsKeepTrueType() == keep
    {
      strongTrueType := keep;
    }

    function IsKeepTrueType(): (x: bool)
      reads this
      ensures x == State().strongTrueType
    {
      strongTrueType
    }

    /** loadFont with an explicit DPI: the remapped size, the configured preload, lock and resolution, and a weak reference unless fonts are kept. */
    function LoadFontAt(path: string, style: Style, pointSize: int, outline: int, dpi: int): (r: BmpFontLoad)
      reads this
      ensures r.key.path == path && r.key.style == style && r.key.outline == outline && r.key.dpi == dpi
      ensures SizeChoice(r.key.pointSize, r.scale) == RemapPointSize(pointSize, isMobile)
      ensures r.key.weakReference == !strongTrueType && r.locked == lockTrueType
      ensures r.key.preload == trueTypePreload && r.key.maxResolution == maxTrueTypeResolution
    {
      var c := RemapPointSize(pointSize, isMobile);
      BmpFontLoad(BmpFontKey(path, style, c.actualSize, outline, dpi, !strongTrueType,
                             trueTypePreload, maxTrueTypeResolution),
                  c.scale, lockTrueType)
    }

    /** loadFont without a DPI: always 72 DPI. */
    function LoadFont(path: string, style: Style, pointSize: int, outline: int): (r: BmpFontLoad)
      reads this
      ensures r.key.dpi == DefaultDpi && r.key.weakReference == !strongTrueType
      ensures r.key.outline == outline
      ensures r == LoadFontAt(path, style, pointSize, outline, DefaultDpi)
    {
      LoadFontAt(path, style, pointSize, outline, DefaultDpi)
    }

    /** loadFontDP: the configured screen DPI. */
    function LoadFontDP(path: string, style: Style, pointSize: int, outline: int): (r: BmpFontLoad)
      reads this
      ensures r.key.dpi == dpi && r.key.weakReference == !strongTrueType
      ensures r.key.outline == outline
      ensures r == LoadFontAt(path, style, pointSize, outline, dpi)
    {
      LoadFontAt(path, style, pointSize, outline, dpi)
    }

    /** loadMeshFont with an explicit DPI: the size unchanged and scale 1. */
    function LoadMeshFontAt(path: string, style: Style, pointSize: int, dpi: int): (r: MeshFontLoad)
      reads this
      ensures r.key.path == path && r.key.style == style && r.key.pointSize == pointSize && r.key.dpi == dpi
      ensures r.scale == Unscaled && r.key.weakReference == !strongTrueType && r.locked == lockTrueType
      ensures r.key.preload == trueTypePreload
    {
      MeshFontLoad(MeshFontKey(path, style, pointSize, dpi, !strongTrueType, trueTypePreload),
                   Unscaled, lockTrueType)
    }

    /** loadMeshFont without a DPI: always 72 DPI. */
    function LoadMeshFont(path: string, style: Style, pointSize: int): (r: MeshFontLoad)
      reads this
      ensures r.key.dpi == DefaultDpi && r.key.pointSize == pointSize && r.key.weakReference == !strongTrueType
      ensures r == LoadMeshFontAt(path, style, pointSize, DefaultDpi)
    {
      LoadMeshFontAt(path, style, pointSize, DefaultDpi)
    }

    /** loadMeshFontDP: the configured screen DPI; the outline argument is ignored. */
    function LoadMeshFontDP(path: string, style: Style, pointSize: int, outline: int): (r: MeshFontLoad)
      reads this
      ensures r.key.dpi == dpi && r.key.pointSize == pointSize && r.key.weakReference == !strongTrueType
      ensures r == LoadMeshFontAt(path, style, pointSize, dpi)
    {
      LoadMeshFontAt(path, style, pointSize, dpi)
    }

    /** What loadMeshFontDP asks for does not depend on its outline argument. */
    lemma MeshFontDPIgnoresOutline(path: string, style: Style, pointSize: int, o1: int, o2: int)
      ensures LoadMeshFontDP(path, style, pointSize, o1) == LoadMeshFontDP(path, style, pointSize, o2)
    {
    }
  }
}
