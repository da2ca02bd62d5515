/**
 * The six Android screen-density buckets and the classification of a raw
 * DPI value into a bucket plus its two scale ratios (ClarityAndroid.java).
 */
module Density {
  import opened Wrappers

  /** GeneralDensity, lowest to highest. */
  datatype GeneralDensity = Ldpi | Mdpi | Hdpi | Xhdpi | Xxhdpi | Xxxhdpi {

    /** Position in the order, 0 for ldpi up to 5 for xxxhdpi. */
    function Rank(): (n: nat)
      ensures n < 6
    {
      match this
      case Ldpi => 0
      case Mdpi => 1
      case Hdpi => 2
      case Xhdpi => 3
      case Xxhdpi => 4
      case Xxxhdpi => 5
    }

    /** The bucket's canonical DPI. */
    function BaseDpi(): (d: nat)
      ensures d == [120, 160, 240, 320, 480, 640][Rank()]
    {
      match this
      case Ldpi => 120
      case Mdpi => 160
      case Hdpi => 240
      case Xhdpi => 320
      case Xxhdpi => 480
      case Xxxhdpi => 640
    }

    /** The next lower bucket; null below ldpi. */
    function Previous(): (p: Option<GeneralDensity>)
      ensures p.None? <==> this == Ldpi
      ensures p.Some? ==> p.value.Rank() + 1 == Rank() && p.value.Next() == Some(this)
    {
      match this
      case Ldpi => None
      case Mdpi => Some(Ldpi)
      case Hdpi => Some(Mdpi)
      case Xhdpi => Some(Hdpi)
      case Xxhdpi => Some(Xhdpi)
      case Xxxhdpi => Some(Xxhdpi)
    }

    /** The next higher bucket; null above xxxhdpi. */
    function Next(): (n: Option<GeneralDensity>)
      ensures n.None? <==> this == Xxxhdpi
      ensures n.Some? ==> n.value.Rank() == Rank() + 1
    {
      match this
      case Ldpi => Some(Mdpi)
      case Mdpi => Some(Hdpi)
      case Hdpi => Some(Xhdpi)
      case Xhdpi => Some(Xxhdpi)
      case Xxhdpi => Some(Xxxhdpi)
      case Xxxhdpi => None
    }

    /** The bucket's directory name, used as a path segment. */
    function ToString(): (s: string)
      ensures |s| >= 4 && '/' !in s
      ensures s[|s| - 3..] == "dpi"
    {
      match this
      case Ldpi => "ldpi"
      case Mdpi => "mdpi"
      case Hdpi => "hdpi"
      case Xhdpi => "xhdpi"
      case Xxhdpi => "xxhdpi"
      case Xxxhdpi => "xxxhdpi"
    }
  }

  /** The bucket of a given rank. */
  function AtRank(n: nat): (b: GeneralDensity)
    requires n < 6
    ensures b.Rank() == n
    ensures forall c: GeneralDensity :: c.Rank() == n ==> c == b
  {
    [Ldpi, Mdpi, Hdpi, Xhdpi, Xxhdpi, Xxxhdpi][n]
  }

  /** Buckets are determined by their rank, and base DPIs grow with rank. */
  lemma RankDetermines(a: GeneralDensity, b: GeneralDensity)
    ensures a.Rank() == b.Rank() <==> a == b
    ensures a.Rank() < b.Rank() <==> a.BaseDpi() < b.BaseDpi()
  {
  }

  /** next() undoes previous() everywhere but ldpi, and previous() undoes next() everywhere but xxxhdpi. */
  lemma PreviousNextInverse(b: GeneralDensity)
    ensures b != Ldpi ==> b.Previous().Some? && b.Previous().value.Next() == Some(b)
    ensures b != Xxxhdpi ==> b.Next().Some? && b.Next().value.Previous() == Some(b)
    ensures Ldpi.Previous() == None && Xxxhdpi.Next() == None
  {
  }

  /** The directory name of each bucket, by rank, alongside BaseDpi's table. */
  lemma DirectoryNames(b: GeneralDensity)
    ensures b.ToString() == ["ldpi", "mdpi", "hdpi", "xhdpi", "xxhdpi", "xxxhdpi"][b.Rank()]
  {
  }

  /** The directory names are pairwise distinct. */
  lemma ToStringInjective(a: GeneralDensity, b: GeneralDensity)
    ensures a.ToString() == b.ToString() <==> a == b
  {
  }

  /** The bucket chosen by setScreenDensity: the largest base DPI among 640..160 not above `dpi`, else ldpi. */
  function Classify(dpi: int): (b: GeneralDensity)
    ensures b == Ldpi <==> dpi < 160
    ensures b != Ldpi ==> b.BaseDpi() <= dpi
    ensures b.Next().Some? ==> dpi < b.Next().value.BaseDpi()
  {
    if dpi >= 640 then Xxxhdpi
    else if dpi >= 480 then Xxhdpi
    else if dpi >= 320 then Xhdpi
    else if dpi >= 240 then Hdpi
    else if dpi >= 160 then Mdpi
    else Ldpi
  }

  /** Classify picks the highest qualifying bucket: every bucket from mdpi up whose base fits ranks no higher. */
  lemma ClassifyIsLargest(dpi: int, c: GeneralDensity)
    requires c != Ldpi && c.BaseDpi() <= dpi
    ensures c.Rank() <= Classify(dpi).Rank()
  {
  }

  /** Classification is monotone in the DPI. */
  lemma ClassifyMonotone(d1: int, d2: int)
    requires d1 <= d2
    ensures Classify(d1).Rank() <= Classify(d2).Rank()
  {
  }

  /** relDpiMod: the DPI relative to the bucket's base (1 for a non-positive DPI, a branch setScreenDensity never reaches). */
  function RelativeScale(dpi: int): (r: real)
    ensures dpi > 0 ==> r * Classify(dpi).BaseDpi() as real == dpi as real
    ensures dpi <= 0 ==> r == 1.0
  {
    if dpi > 0 then dpi as real / Classify(dpi).BaseDpi() as real else 1.0
  }

  /** dpiMod: the DPI relative to the reference 160 DPI (1 for a non-positive DPI). */
  function AbsoluteScale(dpi: int): (r: real)
    ensures dpi > 0 ==> r * 160.0 == dpi as real
    ensures dpi <= 0 ==> r == 1.0
  {
    if dpi > 0 then dpi as real / 160.0 else 1.0
  }

  /** From mdpi upwards the relative scale lies in [1, next base / base). */
  lemma RelativeScaleBounds(dpi: int)
    requires dpi >= 160
    ensures 1.0 <= RelativeScale(dpi)
    ensures Classify(dpi).Next().Some? ==>
      RelativeScale(dpi) < Classify(dpi).Next().value.BaseDpi() as real / Classify(dpi).BaseDpi() as real
  {
    var b := Classify(dpi);
    var r := RelativeScale(dpi);
    assert r * b.BaseDpi() as real == dpi as real;
    if b.Next().Some? {
      var n := b.Next().value.BaseDpi() as real;
      assert dpi as real < n;
      assert r * (b.BaseDpi() as real) < n;
    }
  }

  /** The documented examples: 320 DPI is xhdpi at scale 2, 80 DPI is ldpi at scale 0.5, 240 DPI is hdpi at 1.5. */
  lemma ClassifyExamples()
    ensures Classify(160) == Mdpi && RelativeScale(160) == 1.0 && AbsoluteScale(160) == 1.0
    ensures Classify(240) == Hdpi && RelativeScale(240) == 1.0 && AbsoluteScale(240) == 1.5
    ensures Classify(320) == Xhdpi && RelativeScale(320) == 1.0 && AbsoluteScale(320) == 2.0
    ensures Classify(80) == Ldpi && RelativeScale(80) * 3.0 == 2.0 && AbsoluteScale(80) == 0.5
  {
  }
}
