/**
 * The TrueType text node (ClarityTrueTypeText.kt): the per-font material
 * cache, the kerning correction, the option setters and the per-vertex
 * colour buffer. Scene-graph work done by update() is represented by a
 * count of rebuilds; the font library's StringContainer is a value the
 * node holds and replaces.
 */
module TrueTypeText {
  import opened Wrappers
  import Clarity

  /** com.jme3.math.ColorRGBA, with exact components. */
  datatype Color = Color(r: real, g: real, b: real, a: real)

  /** The node's default text colour, opaque white. */
  const DefaultColor: Color := Color(1.0, 1.0, 1.0, 1.0)
  /** The default outline colour, opaque black. */
  const DefaultOutline: Color := Color(0.0, 0.0, 0.0, 1.0)

  /** com.jme3.font.Rectangle. */
  datatype Rect = Rect(x: real, y: real, width: real, height: real)

  /** StringContainer.Align. */
  datatype Align = Left | Right | Center
  /** StringContainer.VAlign. */
  datatype VAlign = Top | VCenter | Bottom
  /** StringContainer.WrapMode. */
  datatype WrapMode = NoWrap | Char | Word | CharClip | WordClip | Clip

  /** The TrueTypeBMP font as the node sees it: its text form, outline width, scaled point size and scale. */
  datatype BmpFont = BmpFont(text: string, outline: int, scaledPointSize: int, scale: real)

  /** The state of a StringContainer that the node writes. */
  datatype Container = Container(
    text: string, kerning: int, maxLines: int,
    alignment: Align, verticalAlignment: VAlign, wrapMode: WrapMode, textBox: Rect)

  // ---------------------------------------------------------------------
  // Option names

  /** setHAlignment(String): the recognised names, case-sensitive. */
  function ParseAlign(name: string): (r: Option<Align>)
    ensures r.Some? ==> AlignName(r.value) == name
  {
    match name
    case "right" => Some(Right)
    case "left" => Some(Left)
    case "center" => Some(Center)
    case _ => None
  }

  /** The name setHAlignment(String) accepts for each alignment. */
  function AlignName(a: Align): string
  {
    match a
    case Right => "right"
    case Left => "left"
    case Center => "center"
  }

  /** Every alignment has a name the parser accepts, and only that name gives it. */
  lemma ParseAlignName(a: Align, name: string)
    ensures ParseAlign(AlignName(a)) == Some(a)
    ensures ParseAlign(name) == Some(a) <==> name == AlignName(a)
  {
  }

  /** setWrapMode(String): the recognised names, case-sensitive. */
  function ParseWrapMode(name: string): (r: Option<WrapMode>)
    ensures r.Some? ==> WrapModeName(r.value) == name
  {
    match name
    case "no-wrap" => Some(NoWrap)
    case "char" => Some(Char)
    case "word" => Some(Word)
    case "char-clip" => Some(CharClip)
    case "word-clip" => Some(WordClip)
    case "clip" => Some(Clip)
    case _ => None
  }

  /** The name setWrapMode(String) accepts for each wrap mode. */
  function WrapModeName(m: WrapMode): string
  {
    match m
    case NoWrap => "no-wrap"
    case Char => "char"
    case Word => "word"
    case CharClip => "char-clip"
    case WordClip => "word-clip"
    case Clip => "clip"
  }

  /** Every wrap mode has a name the parser accepts, and only that name gives it. */
  lemma ParseWrapModeName(m: WrapMode, name: string)
    ensures ParseWrapMode(WrapModeName(m)) == Some(m)
    ensures ParseWrapMode(name) == Some(m) <==> name == WrapModeName(m)
  {
  }

  // ---------------------------------------------------------------------
  // Kerning

  /** fixKerning's thresholds: 2 below 17 points, 1 below 23, else 0. */
  function KerningFor(scaledPointSize: int): (k: int)
    ensures 0 <= k <= 2
    ensures k == 2 <==> scaledPointSize < 17
    ensures k == 1 <==> 17 <= scaledPointSize < 23
  {
    if scaledPointSize < 17 then 2 else if scaledPointSize < 23 then 1 else 0
  }

  /** Larger fonts never get more kerning. */
  lemma KerningMonotone(small: int, large: int)
    requires small <= large
    ensures KerningFor(large) <= KerningFor(small)
  {
  }

  /** fixKerning on the container: off mobile the font's threshold value, on mobile nothing. */
  function Kerned(c: Container, font: BmpFont, isMobile: bool): (d: Container)
    ensures isMobile ==> d == c
    ensures !isMobile ==> d == c.(kerning := KerningFor(font.scaledPointSize))
  {
    if !isMobile then c.(kerning := KerningFor(font.scaledPointSize)) else c
  }

  // ---------------------------------------------------------------------
  // The vertex colour buffer

  /** Component i of a colour, in the order r, g, b, a. */
  function Component(c: Color, i: nat): real
    requires i < 4
  {
    if i == 0 then c.r else if i == 1 then c.g else if i == 2 then c.b else c.a
  }

  /** setVertexColor's array: entry i is component i % 4 of the colour, four entries per vertex. */
  function ColorBuffer(c: Color, vertexCount: nat): (buf: seq<real>)
    ensures |buf| == 4 * vertexCount
  {
    seq(4 * vertexCount, i requires 0 <= i < 4 * vertexCount => Component(c, i % 4))
  }

  /** The colour written once per vertex. */
  function Repeated(c: Color, vertexCount: nat): seq<real>
  {
    if vertexCount == 0 then [] else Repeated(c, vertexCount - 1) + [c.r, c.g, c.b, c.a]
  }

  /** The buffer is the colour's four components repeated once per vertex. */
  lemma {:induction false} ColorBufferRepeats(c: Color, vertexCount: nat)
    ensures ColorBuffer(c, vertexCount) == Repeated(c, vertexCount)
  {
    if vertexCount > 0 {
      ColorBufferRepeats(c, vertexCount - 1);
      var prev := ColorBuffer(c, vertexCount - 1);
      var buf := ColorBuffer(c, vertexCount);
      var n := 4 * (vertexCount - 1);
      forall i | 0 <= i < |buf|
        ensures buf[i] == (prev + [c.r, c.g, c.b, c.a])[i]
      {
        if i < n {
          assert buf[i] == prev[i];
        } else {
          assert i % 4 == i - n;
        }
      }
    }
  }

  // ---------------------------------------------------------------------
  // Materials

  /** Material definitions the node uses. */
  const BitmapDefinition: string := "Common/MatDefs/TTF/TTF_Bitmap.j3md"
  const OutlinedDefinition: string := "Common/MatDefs/TTF/TTF_BitmapOutlined.j3md"
  const MeshDefinition: string := "Common/MatDefs/TTF/TTF.j3md"

  /** A material's parameters: its definition, colour and boolean parameters, and alpha blending. */
  datatype MaterialSpec = MaterialSpec(
    definition: string, colors: map<string, Color>, booleans: map<string, bool>, alphaBlend: bool)

  /** com.jme3.material.Material, reduced to the parameters the node sets. */
  class Material {
    var definition: string
    var colors: map<string, Color>
    var booleans: map<string, bool>
    var alphaBlend: bool

    function Spec(): MaterialSpec
      reads this
    {
      MaterialSpec(definition, colors, booleans, alphaBlend)
    }

    /** A material of the definition with no parameters set and default blending. */
    constructor (def: string)
      ensures Spec() == MaterialSpec(def, map[], map[], false)
    {
      definition := def;
      colors := map[];
      booleans := map[];
      alphaBlend := false;
    }

    method SetColor(name: string, c: Color)
      modifies this
      ensures Spec() == old(Spec()).(colors := old(colors)[name := c])
    {
      colors := colors[name := c];
    }

    method SetBoolean(name: string, b: bool)
      modifies this
      ensures Spec() == old(Spec()).(booleans := old(booleans)[name := b])
    {
      booleans := booleans[name := b];
    }

    method SetAlphaBlend()
      modifies this
      ensures Spec() == old(Spec()).(alphaBlend := true)
    {
      alphaBlend := true;
    }
  }

  /**
   * The material getDefaultBMPMaterial builds: the outlined definition with
   * its outline colour exactly for an outlined font, the text colour always,
   * and alpha blending.
   */
  function BmpMaterial(fontOutline: int, color: Color, outline: Color): (s: MaterialSpec)
    ensures s.definition == OutlinedDefinition <==> fontOutline > 0
    ensures s.definition == BitmapDefinition <==> fontOutline <= 0
    ensures "Outline" in s.colors <==> fontOutline > 0
    ensures "Outline" in s.colors ==> s.colors["Outline"] == outline
    ensures "Color" in s.colors && s.colors["Color"] == color
    ensures s.colors.Keys <= {"Outline", "Color"} && s.booleans == map[] && s.alphaBlend
  {
    if fontOutline > 0 then
      MaterialSpec(OutlinedDefinition, map["Outline" := outline, "Color" := color], map[], true)
    else
      MaterialSpec(BitmapDefinition, map["Color" := color], map[], true)
  }

  /** The material getDefaultMeshMaterial builds: anti-aliasing only with derivatives and an anti-aliased font. */
  function MeshMaterial(derivatives: bool, isAA: bool, color: Color): (s: MaterialSpec)
    ensures s.definition == MeshDefinition && s.colors == map["Color" := color]
    ensures "useAA" in s.booleans && s.booleans.Keys == {"useAA"}
    ensures s.booleans["useAA"] <==> derivatives && isAA
    ensures !s.alphaBlend
  {
    MaterialSpec(MeshDefinition, map["Color" := color], map["useAA" := derivatives && isAA], false)
  }

  /** The cache key "$font-$color-$outline", with the colours rendered by `show`. */
  function CacheKey(font: BmpFont, color: Color, outline: Color, show: Color -> string): string
  {
    font.text + "-" + show(color) + "-" + show(outline)
  }

  /** The companion object's map from cache key to material. */
  class MaterialCache {
    var fontToMaterial: map<string, Material>

    constructor ()
      ensures fontToMaterial == map[]
    {
      fontToMaterial := map[];
    }

    /**
     * getDefaultBMPMaterial(font, color, outline): a cached material is
     * returned as it is; otherwise a new one is built, stored under the
     * key, and returned.
     */
    method GetDefaultBMPMaterial(font: BmpFont, color: Color, outline: Color, show: Color -> string)
      returns (m: Material)
      modifies this
      ensures var key := CacheKey(font, color, outline, show);
        && key in fontToMaterial && fontToMaterial[key] == m
        && (key in old(fontToMaterial) ==> m == old(fontToMaterial)[key] && fontToMaterial == old(fontToMaterial))
        && (key !in old(fontToMaterial) ==>
              fresh(m) && fontToMaterial == old(fontToMaterial)[key := m] &&
              m.Spec() == BmpMaterial(font.outline, color, outline))
    {
      var key := font.text + "-" + show(color) + "-" + show(outline);
      if key in fontToMaterial {
        return fontToMaterial[key];
      }
      if font.outline > 0 {
        m := new Material(OutlinedDefinition);
        m.SetColor("Outline", outline);
      } else {
        m := new Material(BitmapDefinition);
      }
      m.SetColor("Color", color);
      m.SetAlphaBlend();
      fontToMaterial := fontToMaterial[key := m];
    }

    /** getDefaultBMPMaterial(font): white text, black outline. */
    method GetDefaultBMPMaterialFor(font: BmpFont, show: Color -> string) returns (m: Material)
      modifies this
      ensures var key := CacheKey(font, DefaultColor, DefaultOutline, show);
        && key in fontToMaterial && fontToMaterial[key] == m
        && (key in old(fontToMaterial) ==> m == old(fontToMaterial)[key] && fontToMaterial == old(fontToMaterial))
        && (key !in old(fontToMaterial) ==>
              fresh(m) && fontToMaterial == old(fontToMaterial)[key := m] &&
              m.Spec() == BmpMaterial(font.outline, DefaultColor, DefaultOutline))
    {
      m := GetDefaultBMPMaterial(font, DefaultColor, DefaultOutline, show);
    }
  }

  /** getDefaultMeshMaterial: a new material each call, never cached. */
  method GetDefaultMeshMaterial(clarity: Clarity.AClarity, isAA: bool, color: Color) returns (m: Material)
    ensures fresh(m) && m.Spec() == MeshMaterial(clarity.IsSupportDerivatives(), isAA, color)
  {
    m := new Material(MeshDefinition);
    m.SetColor("Color", color);
    m.SetBoolean("useAA", clarity.IsSupportDerivatives() && isAA);
  }

  // ---------------------------------------------------------------------
  // The node

  /** Every field of the node the modelled logic reads or writes. */
  datatype NodeView = NodeView(
    container: Container, maxLines: int, maxHeight: real, font: BmpFont, fontScale: real,
    textBox: Rect, vertexColor: Color, isInitialized: bool, rebuilds: nat)

  /**
   * update(): the kerning correction, the font scale, the text box handed
   * to the container, and one rebuild of the text geometry.
   */
  function Updated(v: NodeView, isMobile: bool): (w: NodeView)
    ensures w.rebuilds == v.rebuilds + 1
    ensures w.container.textBox == v.textBox && w.fontScale == v.font.scale
    ensures w.container.kerning == if isMobile then v.container.kerning else KerningFor(v.font.scaledPointSize)
    ensures w.container.text == v.container.text && w.maxLines == v.maxLines && w.maxHeight == v.maxHeight
  {
    v.(container := Kerned(v.container, v.font, isMobile).(textBox := v.textBox),
       fontScale := v.font.scale, rebuilds := v.rebuilds + 1)
  }

  /** invalidate(): update() once the node is initialised, nothing before. */
  function Invalidated(v: NodeView, isMobile: bool): (w: NodeView)
    ensures v.isInitialized ==> w == Updated(v, isMobile)
    ensures !v.isInitialized ==> w == v
  {
    if v.isInitialized then Updated(v, isMobile) else v
  }

  /** setText(text): nothing when the text is unchanged; otherwise store it, update, and invalidate. */
  function TextSet(v: NodeView, text: string, isMobile: bool): (w: NodeView)
    ensures w.container.text == text
    ensures w.maxLines == v.maxLines && w.maxHeight == v.maxHeight && w.font == v.font
    ensures w.vertexColor == v.vertexColor && w.isInitialized == v.isInitialized
  {
    if text == v.container.text then v
    else Invalidated(Updated(v.(container := v.container.(text := text)), isMobile), isMobile)
  }

  /**
   * setText keeps a node with the same text as it is; a new text is stored
   * and rebuilds the geometry, twice once the node is initialised.
   */
  lemma TextSetEffect(v: NodeView, text: string, isMobile: bool)
    ensures text == v.container.text ==> TextSet(v, text, isMobile) == v
    ensures text != v.container.text ==>
      TextSet(v, text, isMobile).container.text == text &&
      TextSet(v, text, isMobile).rebuilds == v.rebuilds + (if v.isInitialized then 2 else 1)
  {
  }

  /** The maxHeight setter: store the value, then invalidate. */
  function MaxHeightSet(v: NodeView, value: real, isMobile: bool): (w: NodeView)
    ensures w.maxHeight == value
    ensures w.rebuilds == v.rebuilds + (if v.isInitialized then 1 else 0)
    ensures w.container.text == v.container.text && w.container.maxLines == v.container.maxLines
    ensures w.maxLines == v.maxLines && w.font == v.font
  {
    Invalidated(v.(maxHeight := value), isMobile)
  }

  /**
   * The maxLines setter: a value of at least 0 is stored (in the node and
   * its container) and the height becomes the container's box height; a
   * negative value is not stored and the height becomes 0.
   */
  function MaxLinesSet(v: NodeView, value: int, isMobile: bool): (w: NodeView)
    ensures w.rebuilds == v.rebuilds + (if v.isInitialized then 1 else 0)
    ensures w.container.text == v.container.text && w.font == v.font
  {
    if value >= 0 then
      var w := v.(maxLines := value, container := v.container.(maxLines := value));
      MaxHeightSet(w, w.container.textBox.height, isMobile)
    else MaxHeightSet(v, 0.0, isMobile)
  }

  /** What the maxLines setter leaves behind, in both cases. */
  lemma MaxLinesSetEffect(v: NodeView, value: int, isMobile: bool)
    ensures value >= 0 ==>
      MaxLinesSet(v, value, isMobile).maxLines == value &&
      MaxLinesSet(v, value, isMobile).container.maxLines == value &&
      MaxLinesSet(v, value, isMobile).maxHeight == v.container.textBox.height
    ensures value < 0 ==>
      MaxLinesSet(v, value, isMobile).maxLines == v.maxLines &&
      MaxLinesSet(v, value, isMobile).container.maxLines == v.container.maxLines &&
      MaxLinesSet(v, value, isMobile).maxHeight == 0.0
  {
  }

  /** The font setter: store the font, take its scale, and correct the kerning; no rebuild. */
  function FontSet(v: NodeView, font: BmpFont, isMobile: bool): (w: NodeView)
    ensures w.font == font && w.fontScale == font.scale && w.rebuilds == v.rebuilds
    ensures w.container.kerning == if isMobile then v.container.kerning else KerningFor(font.scaledPointSize)
    ensures w.container == v.container.(kerning := w.container.kerning)
    ensures w.maxLines == v.maxLines && w.maxHeight == v.maxHeight
  {
    v.(font := font, fontScale := font.scale, container := Kerned(v.container, font, isMobile))
  }

  /** A container option written, then invalidate. */
  function ContainerSet(v: NodeView, c: Container, isMobile: bool): (w: NodeView)
    ensures w.rebuilds == v.rebuilds + (if v.isInitialized then 1 else 0)
    ensures w.container.text == c.text && w.container.alignment == c.alignment
    ensures w.container.verticalAlignment == c.verticalAlignment && w.container.wrapMode == c.wrapMode
    ensures w.container.kerning == if v.isInitialized && !isMobile then KerningFor(v.font.scaledPointSize) else c.kerning
  {
    Invalidated(v.(container := c), isMobile)
  }

  /**
   * setKerning(k) does not last off mobile once the node is initialised:
   * the update that invalidate runs puts the font's threshold value back.
   */
  lemma SetKerningOverridden(v: NodeView, k: int, isMobile: bool)
    ensures v.isInitialized && !isMobile ==>
      ContainerSet(v, v.container.(kerning := k), isMobile).container.kerning == KerningFor(v.font.scaledPointSize)
    ensures isMobile || !v.isInitialized ==>
      ContainerSet(v, v.container.(kerning := k), isMobile).container.kerning == k
  {
  }

  /** Reapplying the same alignment, vertical alignment or wrap mode is like an invalidate. */
  lemma ContainerSetSame(v: NodeView, isMobile: bool)
    ensures ContainerSet(v, v.container, isMobile) == Invalidated(v, isMobile)
  {
  }

  class ClarityTrueTypeText {
    /** The configuration singleton, read for isMobile and derivative support. */
    const clarity: Clarity.AClarity
    /** The material the text geometry is drawn with. */
    const material: Material

    var container: Container
    var maxLines: int
    var maxHeight: real
    var font: BmpFont
    var fontScale: real
    var textBox: Rect
    var vertexColor: Color
    var isInitialized: bool
    /** How many times update() has rebuilt the text geometry. */
    var rebuilds: nat

    function View(): NodeView
      reads this
    {
      NodeView(container, maxLines, maxHeight, font, fontScale, textBox, vertexColor, isInitialized, rebuilds)
    }

    /**
     * The primary constructor: field initialisers (white, one line, height 1,
     * an empty text box), then the init block's update() and the initialised flag.
     */
    constructor (c: Container, f: BmpFont, m: Material, config: Clarity.AClarity)
      ensures clarity == config && material == m
      ensures View() ==
        Updated(NodeView(c, 1, 1.0, f, 0.0, Rect(0.0, 0.0, 0.0, 0.0), DefaultColor, false, 0), config.isMobile)
          .(isInitialized := true)
    {
      clarity := config;
      material := m;
      container := c;
      maxLines := 1;
      maxHeight := 1.0;
      font := f;
      fontScale := 0.0;
      textBox := Rect(0.0, 0.0, 0.0, 0.0);
      vertexColor := DefaultColor;
      isInitialized := false;
      rebuilds := 0;
      new;
      Update();
      isInitialized := true;
    }

    method Update()
      modifies this
      ensures View() == Updated(old(View()), clarity.isMobile)
    {
      FixKerning();
      fontScale := font.scale;
      container := container.(textBox := textBox);
      rebuilds := rebuilds + 1;
      SetColor(vertexColor);
    }

    method FixKerning()
      modifies this
      ensures View() == old(View()).(container := Kerned(old(container), font, clarity.isMobile))
    {
      // the declared font type is always TrueTypeBMP, so only isMobile decides
      if !clarity.isMobile {
        if font.scaledPointSize < 17 {
          container := container.(kerning := 2);
        } else if font.scaledPointSize < 23 {
          container := container.(kerning := 1);
        } else {
          container := container.(kerning := 0);
        }
      }
    }

    /** getKerning: the container's kerning. */
    function GetKerning(): (k: int)
      reads this
      ensures k == View().container.kerning
    {
      container.kerning
    }

    method Invalidate()
      modifies this
      ensures View() == Invalidated(old(View()), clarity.isMobile)
    {
      if isInitialized {
        Update();
      }
    }

    /** setColor: the colour is kept for later updates; painting the geometries is left to the engine. */
    method SetColor(color: Color)
      modifies this
      ensures View() == old(View()).(vertexColor := color)
    {
      vertexColor := color;
    }

    method SetText(text: string)
      modifies this
      ensures View() == TextSet(old(View()), text, clarity.isMobile)
      ensures GetText() == text
    {
      if text != container.text {
        container := container.(text := text);
        Update();
        Invalidate();
      }
    }

    /** getText: the container's text. */
    function GetText(): (s: string)
      reads this
      ensures s == View().container.text
    {
      container.text
    }

    method SetMaxHeight(value: real)
      modifies this
      ensures View() == MaxHeightSet(old(View()), value, clarity.isMobile)
    {
      maxHeight := value;
      Invalidate();
    }

    method SetMaxLines(value: int)
      modifies this
      ensures View() == MaxLinesSet(old(View()), value, clarity.isMobile)
    {
      if value >= 0 {
        maxLines := value;
        container := container.(maxLines := value);
        SetMaxHeight(container.textBox.height);
      } else {
        SetMaxHeight(0.0);
      }
    }

    /** The font setter; the atlas-listener hand-over is skipped because no listener is ever stored. */
    method SetFont(value: BmpFont)
      modifies this
      ensures View() == FontSet(old(View()), value, clarity.isMobile)
    {
      font := value;
      fontScale := font.scale;
      FixKerning();
    }

    method SetTextBox(x: real, y: real, width: real, height: real)
      modifies this
      ensures View() == Updated(old(View()).(textBox := Rect(x, y, width, height)), clarity.isMobile)
    {
      textBox := Rect(x, y, width, height);
      Update();
    }

    method SetHAlignment(a: Align)
      modifies this
      ensures View() == ContainerSet(old(View()), old(container).(alignment := a), clarity.isMobile)
    {
      container := container.(alignment := a);
      Invalidate();
    }

    /** setHAlignment(String): a recognised name sets that alignment; anything else changes nothing. */
    method SetHAlignmentNamed(name: string)
      modifies this
      ensures ParseAlign(name).None? ==> View() == old(View())
      ensures ParseAlign(name).Some? ==>
        View() == ContainerSet(old(View()), old(container).(alignment := ParseAlign(name).value), clarity.isMobile)
    {
      match name {
        case "right" => SetHAlignment(Right);
        case "left" => SetHAlignment(Left);
        case "center" => SetHAlignment(Center);
        case _ =>
      }
    }

    method SetVAlignment(a: VAlign)
      modifies this
      ensures View() == ContainerSet(old(View()), old(container).(verticalAlignment := a), clarity.isMobile)
    {
      container := container.(verticalAlignment := a);
      Invalidate();
    }

    method SetWrapMode(m: WrapMode)
      modifies this
      ensures View() == ContainerSet(old(View()), old(container).(wrapMode := m), clarity.isMobile)
    {
      container := container.(wrapMode := m);
      Invalidate();
    }

    /** setWrapMode(String): a recognised name sets that mode; anything else changes nothing. */
    method SetWrapModeNamed(name: string)
      modifies this
      ensures ParseWrapMode(name).None? ==> View() == old(View())
      ensures ParseWrapMode(name).Some? ==>
        View() == ContainerSet(old(View()), old(container).(wrapMode := ParseWrapMode(name).value), clarity.isMobile)
    {
      match name {
        case "no-wrap" => SetWrapMode(NoWrap);
        case "char" => SetWrapMode(Char);
        case "word" => SetWrapMode(Word);
        case "char-clip" => SetWrapMode(CharClip);
        case "word-clip" => SetWrapMode(WordClip);
        case "clip" => SetWrapMode(Clip);
        case _ =>
      }
    }

    method SetKerning(k: int)
      modifies this
      ensures View() == ContainerSet(old(View()), old(container).(kerning := k), clarity.isMobile)
      ensures GetKerning() == if old(isInitialized) && !clarity.isMobile then KerningFor(old(font).scaledPointSize) else k
    {
      container := container.(kerning := k);
      Invalidate();
    }
  }
}
