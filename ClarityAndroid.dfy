/**
 * The Android platform variant (ClarityAndroid.java): start-up probing of
 * the display and the GL driver, the screen-density setter, and the
 * density-bucket texture search of loadTextureDP.
 */
module Android {
  import opened Wrappers
  import opened Strings
  import opened Density
  import opened Assets
  import opened Probing
  import Clarity

  // ---------------------------------------------------------------------
  // Path splitting and the candidate paths

  /** A texture path cut after its last '/'. */
  datatype PathParts = PathParts(prefix: string, fileName: string)

  /**
   * The split loadTextureDP performs before any probe: None when '/' is the
   * last character; with no '/' the prefix is empty and the file name is the path.
   */
  function SplitAtLastSlash(path: string): (r: Option<PathParts>)
    ensures r.None? <==> |path| > 0 && path[|path| - 1] == '/'
    ensures r.Some? ==> r.value.prefix + r.value.fileName == path
    ensures r.Some? ==> '/' !in r.value.fileName
    ensures r.Some? ==> r.value.prefix == [] || r.value.prefix[|r.value.prefix| - 1] == '/'
    ensures r.Some? && '/' !in path ==> r.value.prefix == [] && r.value.fileName == path
  {
    var slash := LastIndexOf(path, '/');
    if slash < 0 then Some(PathParts([], path))
    else if slash == |path| - 1 then None
    else Some(PathParts(path[..slash + 1], path[slash + 1..]))
  }

  /** The density-qualified candidate: prefix, bucket name, '/', file name. */
  function DensityPath(prefix: string, b: GeneralDensity, fileName: string): (r: string)
    ensures |r| == |prefix| + |b.ToString()| + 1 + |fileName|
  {
    prefix + b.ToString() + "/" + fileName
  }

  /** The downward stage from bucket `o` to ldpi; not-found is caught. */
  function DownProbes(prefix: string, fileName: string, o: Option<GeneralDensity>): seq<Probe>
    decreases if o.Some? then o.value.Rank() + 1 else 0
  {
    match o
    case None => []
    case Some(b) => [Probe(DensityPath(prefix, b, fileName), true)] + DownProbes(prefix, fileName, b.Previous())
  }

  /** The upward stage from bucket `o` to xxxhdpi; not-found is NOT caught. */
  function UpProbes(prefix: string, fileName: string, o: Option<GeneralDensity>): seq<Probe>
    decreases if o.Some? then 6 - o.value.Rank() else 0
  {
    match o
    case None => []
    case Some(b) => [Probe(DensityPath(prefix, b, fileName), false)] + UpProbes(prefix, fileName, b.Next())
  }

  /** A downward stage that starts at a bucket: that bucket's probe first, then the stage from the bucket below. */
  lemma DownProbesCons(prefix: string, fileName: string, b: GeneralDensity)
    ensures var r := DownProbes(prefix, fileName, Some(b));
      r != [] && r[0] == Probe(DensityPath(prefix, b, fileName), true) && r[1..] == DownProbes(prefix, fileName, b.Previous())
  {
    HeadTail(Probe(DensityPath(prefix, b, fileName), true), DownProbes(prefix, fileName, b.Previous()));
  }

  /** An upward stage that starts at a bucket: that bucket's probe first, then the stage from the bucket above. */
  lemma UpProbesCons(prefix: string, fileName: string, b: GeneralDensity)
    ensures var r := UpProbes(prefix, fileName, Some(b));
      r != [] && r[0] == Probe(DensityPath(prefix, b, fileName), false) && r[1..] == UpProbes(prefix, fileName, b.Next())
  {
    HeadTail(Probe(DensityPath(prefix, b, fileName), false), UpProbes(prefix, fileName, b.Next()));
  }

  lemma HeadTail<T>(x: T, a: seq<T>)
    ensures ([x] + a)[0] == x && ([x] + a)[1..] == a
  {
  }

  /** Cutting a candidate path back to the prefix's length gives the prefix again, as the builder's setLength does. */
  lemma DensityPathTruncates(prefix: string, b: GeneralDensity, fileName: string)
    ensures |DensityPath(prefix, b, fileName)| > |prefix|
    ensures DensityPath(prefix, b, fileName)[..|prefix|] == prefix
  {
    var p := DensityPath(prefix, b, fileName);
    assert p == prefix + (b.ToString() + "/" + fileName);
  }

  /** The unqualified candidate tried between the two stages. */
  function BareProbe(prefix: string, fileName: string): Probe
  {
    Probe(prefix + fileName, true)
  }

  /** Every probe loadTextureDP may make, in order. */
  function Plan(prefix: string, fileName: string, current: GeneralDensity): (r: seq<Probe>)
    ensures |r| == 7 && r[current.Rank() + 1] == BareProbe(prefix, fileName)
  {
    DownProbesShape(prefix, fileName, current);
    UpProbesShape(prefix, fileName, current.Next());
    DownProbes(prefix, fileName, Some(current)) + [BareProbe(prefix, fileName)] + UpProbes(prefix, fileName, current.Next())
  }

  /**
   * The i-th candidate written out: the current bucket and those below it,
   * then the bare path, then the buckets above, each rebuilt from the same prefix.
   */
  function CandidatePath(prefix: string, fileName: string, current: GeneralDensity, i: nat): (r: string)
    requires i < 7
    ensures |prefix| + |fileName| <= |r| && r[..|prefix|] == prefix && r[|r| - |fileName|..] == fileName
    ensures r == prefix + fileName <==> i == current.Rank() + 1
  {
    var r := current.Rank();
    if i <= r then DensityPath(prefix, AtRank(r - i), fileName)
    else if i == r + 1 then prefix + fileName
    else DensityPath(prefix, AtRank(i - 1), fileName)
  }

  lemma {:induction false} DownProbesShape(prefix: string, fileName: string, b: GeneralDensity)
    ensures |DownProbes(prefix, fileName, Some(b))| == b.Rank() + 1
    ensures forall i :: 0 <= i <= b.Rank() ==>
      DownProbes(prefix, fileName, Some(b))[i] == Probe(DensityPath(prefix, AtRank(b.Rank() - i), fileName), true)
    decreases b.Rank()
  {
    var ps := DownProbes(prefix, fileName, Some(b));
    DownProbesCons(prefix, fileName, b);
    match b.Previous()
    case None =>
    case Some(p) =>
      DownProbesShape(prefix, fileName, p);
      forall i | 0 <= i <= b.Rank()
        ensures ps[i] == Probe(DensityPath(prefix, AtRank(b.Rank() - i), fileName), true)
      {
        if i > 0 {
          assert ps[i] == ps[1..][i - 1];
        }
      }
  }

  lemma {:induction false} UpProbesShape(prefix: string, fileName: string, o: Option<GeneralDensity>)
    ensures var s := if o.Some? then o.value.Rank() else 6;
      |UpProbes(prefix, fileName, o)| == 6 - s &&
      forall i :: 0 <= i < 6 - s ==>
        UpProbes(prefix, fileName, o)[i] == Probe(DensityPath(prefix, AtRank(s + i), fileName), false)
    decreases if o.Some? then 6 - o.value.Rank() else 0
  {
    match o
    case None =>
    case Some(b) =>
      UpProbesShape(prefix, fileName, b.Next());
      var ps := UpProbes(prefix, fileName, o);
      var tail := UpProbes(prefix, fileName, b.Next());
      assert ps == [Probe(DensityPath(prefix, b, fileName), false)] + tail;
      forall i | 0 <= i < 6 - b.Rank()
        ensures ps[i] == Probe(DensityPath(prefix, AtRank(b.Rank() + i), fileName), false)
      {
        if i > 0 {
          assert ps[i] == tail[i - 1];
        }
      }
  }

  /**
   * The plan has seven probes, in the documented order; exactly the first
   * rank(current) + 2 (the downward stage and the bare path) treat
   * not-found as a miss.
   */
  lemma PlanShape(prefix: string, fileName: string, current: GeneralDensity)
    ensures |Plan(prefix, fileName, current)| == 7
    ensures forall i :: 0 <= i < 7 ==>
      Plan(prefix, fileName, current)[i] ==
        Probe(CandidatePath(prefix, fileName, current, i), i <= current.Rank() + 1)
  {
    forall i | 0 <= i < 7
      ensures |Plan(prefix, fileName, current)| == 7
      ensures Plan(prefix, fileName, current)[i] == Probe(CandidatePath(prefix, fileName, current, i), i <= current.Rank() + 1)
    {
      PlanAt(prefix, fileName, current, i);
    }
  }

  /** The i-th probe of the plan, one index at a time. */
  lemma PlanAt(prefix: string, fileName: string, current: GeneralDensity, i: nat)
    requires i < 7
    ensures |Plan(prefix, fileName, current)| == 7
    ensures Plan(prefix, fileName, current)[i] == Probe(CandidatePath(prefix, fileName, current, i), i <= current.Rank() + 1)
  {
    var r := current.Rank();
    if i <= r {
      PlanAtDown(prefix, fileName, current, i);
    } else if i == r + 1 {
      PlanAtBare(prefix, fileName, current);
    } else {
      PlanAtUp(prefix, fileName, current, i);
    }
  }

  /** The lengths of the two stages and of the whole plan. */
  lemma PlanParts(prefix: string, fileName: string, current: GeneralDensity)
    ensures |DownProbes(prefix, fileName, Some(current))| == current.Rank() + 1
    ensures |UpProbes(prefix, fileName, current.Next())| == 5 - current.Rank()
    ensures |Plan(prefix, fileName, current)| == 7
  {
    DownProbesShape(prefix, fileName, current);
    UpProbesShape(prefix, fileName, current.Next());
  }

  lemma PlanAtDown(prefix: string, fileName: string, current: GeneralDensity, i: nat)
    requires i <= current.Rank()
    ensures |Plan(prefix, fileName, current)| == 7
    ensures Plan(prefix, fileName, current)[i] == Probe(DensityPath(prefix, AtRank(current.Rank() - i), fileName), true)
  {
    PlanParts(prefix, fileName, current);
    DownProbesShape(prefix, fileName, current);
    ConcatAt(DownProbes(prefix, fileName, Some(current)), BareProbe(prefix, fileName),
             UpProbes(prefix, fileName, current.Next()), i);
  }

  lemma PlanAtBare(prefix: string, fileName: string, current: GeneralDensity)
    ensures |Plan(prefix, fileName, current)| == 7
    ensures Plan(prefix, fileName, current)[current.Rank() + 1] == BareProbe(prefix, fileName)
  {
    PlanParts(prefix, fileName, current);
    ConcatAt(DownProbes(prefix, fileName, Some(current)), BareProbe(prefix, fileName),
             UpProbes(prefix, fileName, current.Next()), current.Rank() + 1);
  }

  lemma PlanAtUp(prefix: string, fileName: string, current: GeneralDensity, i: nat)
    requires current.Rank() + 1 < i < 7
    ensures |Plan(prefix, fileName, current)| == 7
    ensures Plan(prefix, fileName, current)[i] == Probe(DensityPath(prefix, AtRank(i - 1), fileName), false)
  {
    PlanParts(prefix, fileName, current);
    UpProbesShape(prefix, fileName, current.Next());
    ConcatAt(DownProbes(prefix, fileName, Some(current)), BareProbe(prefix, fileName),
             UpProbes(prefix, fileName, current.Next()), i);
  }

  /** Indexing into a + [x] + b. */
  lemma ConcatAt<T>(a: seq<T>, x: T, b: seq<T>, i: nat)
    requires i < |a| + 1 + |b|
    ensures (a + [x] + b)[i] == if i < |a| then a[i] else if i == |a| then x else b[i - |a| - 1]
  {
  }

  /** Every bucket's directory is among the candidates: the search is exhaustive. */
  lemma PlanCoversEveryBucket(prefix: string, fileName: string, current: GeneralDensity, b: GeneralDensity)
    ensures exists i :: (0 <= i < |Plan(prefix, fileName, current)| &&
      Plan(prefix, fileName, current)[i].path == DensityPath(prefix, b, fileName))
  {
    var r := current.Rank();
    var i := if b.Rank() <= r then r - b.Rank() else b.Rank() + 1;
    PlanAt(prefix, fileName, current, i);
    assert Plan(prefix, fileName, current)[i].path == CandidatePath(prefix, fileName, current, i);
  }


  // ---------------------------------------------------------------------
  // loadTextureDP as a whole

  /**
   * The search both loadTextureDP variants share: split the path, fail
   * before probing without a bucket, otherwise run the candidate plan.
   * `catchUpward` is the one difference: whether the upward stage treats
   * not-found as a miss, as the other two stages do.
   */
  function ResolveWith(load: Loader, path: string, density: Option<GeneralDensity>, repeat: bool, generateMips: bool,
                       catchUpward: bool): (r: Resolution)
    ensures |r.probed| <= 7
    ensures r.probed == [] <==> SplitAtLastSlash(path).None? || density.None?
    ensures r.result == Failed(NullPointer) <==> SplitAtLastSlash(path).Some? && density.None?
    ensures r.result.Loaded? ==>
      r.probed != [] &&
      var last := r.probed[|r.probed| - 1];
      load(last).Found? && r.result.texture == Texture(load(last).asset, last, WrapFor(repeat))
    ensures r.result.Failed? && r.result.error.AssetNotFound? ==>
      r.probed != [] && load(r.probed[|r.probed| - 1]) == NotFound && r.result.error.name == r.probed[|r.probed| - 1].name
  {
    if SplitAtLastSlash(path).None? then Resolution(Failed(TextureError(LoadErrorMessage(path))), [])
    else if density.None? then Resolution(Failed(NullPointer), [])
    else
        var parts := SplitAtLastSlash(path).value;
        var plan := Candidates(parts.prefix, parts.fileName, density.value, catchUpward);
        ConcludeRun(load, path, plan, repeat, generateMips);
        Conclude(path, RunPlan(load, plan, repeat, generateMips))
  }

  /** The seven probes, with the upward stage catching not-found or not. */
  function Candidates(prefix: string, fileName: string, current: GeneralDensity, catchUpward: bool): (plan: seq<Probe>)
    ensures |plan| == 7
  {
    if catchUpward then CatchAll(Plan(prefix, fileName, current)) else Plan(prefix, fileName, current)
  }

  /** loadTextureDP's behaviour, given the current bucket (None while no positive DPI has been set). */
  function Resolve(load: Loader, path: string, density: Option<GeneralDensity>, repeat: bool, generateMips: bool): (r: Resolution)
    ensures |r.probed| <= 7
    ensures r.probed == [] <==> SplitAtLastSlash(path).None? || density.None?
    ensures r.result == Failed(NullPointer) <==> SplitAtLastSlash(path).Some? && density.None?
    ensures r.result.Loaded? ==>
      r.probed != [] &&
      var last := r.probed[|r.probed| - 1];
      load(last).Found? && r.result.texture == Texture(load(last).asset, last, WrapFor(repeat))
    ensures r.result.Failed? && r.result.error.AssetNotFound? ==>
      r.probed != [] && load(r.probed[|r.probed| - 1]) == NotFound && r.result.error.name == r.probed[|r.probed| - 1].name
  {
    ResolveWith(load, path, density, repeat, generateMips, false)
  }


  /** On a well-formed path with a bucket set, both searches are a run of the seven candidates; only the catching differs. */
  lemma ResolveRuns(load: Loader, path: string, prefix: string, fileName: string, current: GeneralDensity,
                    repeat: bool, generateMips: bool)
    requires SplitAtLastSlash(path) == Some(PathParts(prefix, fileName))
    ensures Resolve(load, path, Some(current), repeat, generateMips) ==
      Conclude(path, RunPlan(load, Plan(prefix, fileName, current), repeat, generateMips))
  {
  }

  lemma ResolveIntendedRuns(load: Loader, path: string, prefix: string, fileName: string, current: GeneralDensity,
                            repeat: bool, generateMips: bool)
    requires SplitAtLastSlash(path) == Some(PathParts(prefix, fileName))
    ensures ResolveIntended(load, path, Some(current), repeat, generateMips) ==
      Conclude(path, RunPlan(load, CatchAll(Plan(prefix, fileName, current)), repeat, generateMips))
  {
  }

  lemma PlanRegrouped(prefix: string, fileName: string, current: GeneralDensity)
    ensures Plan(prefix, fileName, current) ==
      DownProbes(prefix, fileName, Some(current)) + ([BareProbe(prefix, fileName)] + UpProbes(prefix, fileName, current.Next()))
  {
    AppendAssoc(DownProbes(prefix, fileName, Some(current)), [BareProbe(prefix, fileName)], UpProbes(prefix, fileName, current.Next()));
  }

  /** loadTextureDP on a well-formed path, stage by stage: downward, the bare path, upward. */
  lemma ResolveInStages(load: Loader, path: string, prefix: string, fileName: string, current: GeneralDensity,
                        repeat: bool, generateMips: bool)
    requires SplitAtLastSlash(path) == Some(PathParts(prefix, fileName))
    ensures Resolve(load, path, Some(current), repeat, generateMips) ==
      Conclude(path, Then(RunPlan(load, DownProbes(prefix, fileName, Some(current)), repeat, generateMips),
                          Step(load, BareProbe(prefix, fileName),
                               RunPlan(load, UpProbes(prefix, fileName, current.Next()), repeat, generateMips),
                               repeat, generateMips)))
  {
    ResolveRuns(load, path, prefix, fileName, current, repeat, generateMips);
    var down := DownProbes(prefix, fileName, Some(current));
    var bare := BareProbe(prefix, fileName);
    var up := UpProbes(prefix, fileName, current.Next());
    PlanRegrouped(prefix, fileName, current);
    RunPlanAppend(load, down, [bare] + up, repeat, generateMips);
    HeadTail(bare, up);
    RunPlanUnfold(load, [bare] + up, repeat, generateMips);
  }


  /** A path ending in '/' fails with the path in the message before any probe. */
  lemma ResolveRejectsDirectory(load: Loader, path: string, density: Option<GeneralDensity>, repeat: bool, generateMips: bool)
    requires |path| > 0 && path[|path| - 1] == '/'
    ensures Resolve(load, path, density, repeat, generateMips) ==
      Resolution(Failed(TextureError(LoadErrorMessage(path))), [])
  {
  }

  /**
   * For a well-formed path, the probes are a prefix of the seven candidates
   * in order, each with the caller's mip flag, and a loaded texture is the
   * last probe's, wrapped as requested.
   */
  lemma ResolveProbesInOrder(load: Loader, path: string, current: GeneralDensity, repeat: bool, generateMips: bool)
    requires SplitAtLastSlash(path).Some?
    ensures var parts := SplitAtLastSlash(path).value;
      var res := Resolve(load, path, Some(current), repeat, generateMips);
      && 1 <= |res.probed| <= 7
      && (forall i :: 0 <= i < |res.probed| ==>
            res.probed[i] == TextureKey(CandidatePath(parts.prefix, parts.fileName, current, i), generateMips))
      && (res.result.Loaded? ==>
            res.result.texture.key == res.probed[|res.probed| - 1] &&
            res.result.texture.wrap == WrapFor(repeat) &&
            load(res.probed[|res.probed| - 1]) == Found(res.result.texture.asset))
      && (res.result.Failed? && res.result.error == TextureError(LoadErrorMessage(path)) ==> |res.probed| == 7)
  {
    var parts := SplitAtLastSlash(path).value;
    var plan := Plan(parts.prefix, parts.fileName, current);
    var s := RunPlan(load, plan, repeat, generateMips);
    var res := Resolve(load, path, Some(current), repeat, generateMips);
    assert res == Conclude(path, s);
    PlanShape(parts.prefix, parts.fileName, current);
    RunPlanProbes(load, plan, repeat, generateMips);
    RunPlanEnd(load, plan, repeat, generateMips);
    forall i | 0 <= i < |res.probed|
      ensures res.probed[i] == TextureKey(CandidatePath(parts.prefix, parts.fileName, current, i), generateMips)
    {
      assert res.probed[i] == KeyOf(plan[i], generateMips);
    }
  }

  /** A directory prefix and a plain file name are split back apart. */
  lemma SplitJoined(prefix: string, fileName: string)
    requires prefix == [] || (prefix[|prefix| - 1] == '/' && fileName != [])
    requires '/' !in fileName
    ensures SplitAtLastSlash(prefix + fileName) == Some(PathParts(prefix, fileName))
  {
    var path := prefix + fileName;
    var slash := LastIndexOf(path, '/');
    if prefix != [] {
      assert path[|prefix| - 1] == '/';
      assert path[..slash + 1] == prefix && path[slash + 1..] == fileName;
    } else {
      assert path == fileName;
    }
  }

  /** Different buckets give different candidate paths, none of them the bare path. */
  lemma DensityPathDistinct(prefix: string, a: GeneralDensity, b: GeneralDensity, fileName: string)
    ensures DensityPath(prefix, a, fileName) == DensityPath(prefix, b, fileName) <==> a == b
    ensures DensityPath(prefix, a, fileName) != prefix + fileName
  {
    assert |DensityPath(prefix, a, fileName)| == |prefix| + |a.ToString()| + 1 + |fileName|;
    if DensityPath(prefix, a, fileName) == DensityPath(prefix, b, fileName) {
      CancelSuffix(prefix + a.ToString() + "/", prefix + b.ToString() + "/", fileName);
      CancelSuffix(prefix + a.ToString(), prefix + b.ToString(), "/");
      CancelPrefix(prefix, a.ToString(), b.ToString());
      ToStringInjective(a, b);
    }
  }

  lemma CancelSuffix<T>(a: seq<T>, b: seq<T>, s: seq<T>)
    requires a + s == b + s
    ensures a == b
  {
    assert a == (a + s)[..|a|] && b == (b + s)[..|b|];
  }

  lemma CancelPrefix<T>(p: seq<T>, a: seq<T>, b: seq<T>)
    requires p + a == p + b
    ensures a == b
  {
    assert a == (p + a)[|p|..] && b == (p + b)[|p|..];
  }

  /**
   * Current bucket hdpi, the hdpi and mdpi variants missing (the asset
   * manager throws) and the ldpi variant present: hdpi, mdpi and ldpi are
   * probed, in that order, and the ldpi texture is loaded.
   */
  lemma ExampleLowerVariant(load: Loader, prefix: string, fileName: string, a: Asset)
    requires prefix == [] || prefix[|prefix| - 1] == '/'
    requires fileName != [] && '/' !in fileName
    requires load(TextureKey(DensityPath(prefix, Hdpi, fileName), true)) == NotFound
    requires load(TextureKey(DensityPath(prefix, Mdpi, fileName), true)) == NotFound
    requires load(TextureKey(DensityPath(prefix, Ldpi, fileName), true)) == Found(a)
    ensures var lowest := TextureKey(DensityPath(prefix, Ldpi, fileName), true);
      Resolve(load, prefix + fileName, Some(Hdpi), false, true) ==
        Resolution(Loaded(Texture(a, lowest, EdgeClamp)),
                   [TextureKey(DensityPath(prefix, Hdpi, fileName), true),
                    TextureKey(DensityPath(prefix, Mdpi, fileName), true), lowest])
  {
    SplitJoined(prefix, fileName);
    LowerVariantRun(load, prefix, fileName, a);
  }

  /** The search of ExampleLowerVariant: two misses, then the ldpi hit. */
  lemma LowerVariantRun(load: Loader, prefix: string, fileName: string, a: Asset)
    requires load(TextureKey(DensityPath(prefix, Hdpi, fileName), true)) == NotFound
    requires load(TextureKey(DensityPath(prefix, Mdpi, fileName), true)) == NotFound
    requires load(TextureKey(DensityPath(prefix, Ldpi, fileName), true)) == Found(a)
    ensures var lowest := TextureKey(DensityPath(prefix, Ldpi, fileName), true);
      RunPlan(load, Plan(prefix, fileName, Hdpi), false, true) ==
        Search(Hit(Texture(a, lowest, EdgeClamp)),
               [TextureKey(DensityPath(prefix, Hdpi, fileName), true),
                TextureKey(DensityPath(prefix, Mdpi, fileName), true), lowest])
  {
    LowerVariantPlan(prefix, fileName);
    HitAtThird(load, Plan(prefix, fileName, Hdpi), false, true);
  }

  /** The first three probes at hdpi: the hdpi, mdpi and ldpi variants, all catching not-found. */
  lemma LowerVariantPlan(prefix: string, fileName: string)
    ensures var plan := Plan(prefix, fileName, Hdpi);
      && |plan| == 7
      && plan[0] == Probe(DensityPath(prefix, Hdpi, fileName), true)
      && plan[1] == Probe(DensityPath(prefix, Mdpi, fileName), true)
      && plan[2] == Probe(DensityPath(prefix, Ldpi, fileName), true)
  {
    PlanAt(prefix, fileName, Hdpi, 0);
    PlanAt(prefix, fileName, Hdpi, 1);
    PlanAt(prefix, fileName, Hdpi, 2);
  }


  // ---------------------------------------------------------------------
  // The upward stage does not catch not-found

  /**
   * As written, a bucket missing above the current one stops the search:
   * current mdpi, nothing below it and no bare file, no hdpi variant, but an
   * xhdpi variant present. The search ends at hdpi with the asset manager's
   * exception and never reaches xhdpi.
   */
  lemma UpwardStopsAtMissingBucket(load: Loader, prefix: string, fileName: string, a: Asset)
    requires prefix == [] || prefix[|prefix| - 1] == '/'
    requires fileName != [] && '/' !in fileName
    requires load(TextureKey(DensityPath(prefix, Mdpi, fileName), true)) == NotFound
    requires load(TextureKey(DensityPath(prefix, Ldpi, fileName), true)) == NotFound
    requires load(TextureKey(prefix + fileName, true)) == NotFound
    requires load(TextureKey(DensityPath(prefix, Hdpi, fileName), true)) == NotFound
    requires load(TextureKey(DensityPath(prefix, Xhdpi, fileName), true)) == Found(a)
    ensures Resolve(load, prefix + fileName, Some(Mdpi), false, true).result ==
      Failed(AssetNotFound(DensityPath(prefix, Hdpi, fileName)))
  {
    SplitJoined(prefix, fileName);
    UpwardStopRun(load, prefix, fileName);
  }

  /** The search of UpwardStopsAtMissingBucket: three caught misses, then hdpi raises. */
  lemma UpwardStopRun(load: Loader, prefix: string, fileName: string)
    requires load(TextureKey(DensityPath(prefix, Mdpi, fileName), true)) == NotFound
    requires load(TextureKey(DensityPath(prefix, Ldpi, fileName), true)) == NotFound
    requires load(TextureKey(prefix + fileName, true)) == NotFound
    requires load(TextureKey(DensityPath(prefix, Hdpi, fileName), true)) == NotFound
    ensures RunPlan(load, Plan(prefix, fileName, Mdpi), false, true).end ==
      Raised(AssetNotFound(DensityPath(prefix, Hdpi, fileName)))
  {
    UpwardStopPlan(prefix, fileName);
    RaiseAtFourth(load, Plan(prefix, fileName, Mdpi), false, true);
  }

  /** The first four probes at mdpi: mdpi, ldpi and the bare path catching not-found, then hdpi not catching it. */
  lemma UpwardStopPlan(prefix: string, fileName: string)
    ensures var plan := Plan(prefix, fileName, Mdpi);
      && |plan| == 7
      && plan[0] == Probe(DensityPath(prefix, Mdpi, fileName), true)
      && plan[1] == Probe(DensityPath(prefix, Ldpi, fileName), true)
      && plan[2] == Probe(prefix + fileName, true)
      && plan[3] == Probe(DensityPath(prefix, Hdpi, fileName), false)
  {
    PlanAt(prefix, fileName, Mdpi, 0);
    PlanAt(prefix, fileName, Mdpi, 1);
    PlanAt(prefix, fileName, Mdpi, 2);
    PlanAt(prefix, fileName, Mdpi, 3);
  }


  /** Every probe made to catch not-found, as the documented search intends. */
  function CatchAll(plan: seq<Probe>): (c: seq<Probe>)
    ensures |c| == |plan|
    ensures forall i :: 0 <= i < |c| ==> c[i] == Probe(plan[i].path, true)
  {
    seq(|plan|, i requires 0 <= i < |plan| => Probe(plan[i].path, true))
  }

  /** loadTextureDP with the upward stage catching not-found like the other two. */
  function ResolveIntended(load: Loader, path: string, density: Option<GeneralDensity>, repeat: bool, generateMips: bool): (r: Resolution)
    ensures |r.probed| <= 7
    ensures r.probed == [] <==> SplitAtLastSlash(path).None? || density.None?
    ensures r.result == Failed(NullPointer) <==> SplitAtLastSlash(path).Some? && density.None?
    ensures r.result.Loaded? ==>
      r.probed != [] &&
      var last := r.probed[|r.probed| - 1];
      load(last).Found? && r.result.texture == Texture(load(last).asset, last, WrapFor(repeat))
  {
    ResolveWith(load, path, density, repeat, generateMips, true)
  }


  /** The intended search never ends in not-found: it fails only with its own message or before probing. */
  lemma IntendedNeverRaisesNotFound(load: Loader, path: string, density: Option<GeneralDensity>, repeat: bool, generateMips: bool)
    ensures !ResolveIntended(load, path, density, repeat, generateMips).result.Failed? ||
      !ResolveIntended(load, path, density, repeat, generateMips).result.error.AssetNotFound?
  {
    if SplitAtLastSlash(path).Some? && density.Some? {
      var parts := SplitAtLastSlash(path).value;
      RunPlanEnd(load, CatchAll(Plan(parts.prefix, parts.fileName, density.value)), repeat, generateMips);
    }
  }

  /** With every probe catching, the first probe the asset manager finds is loaded. */
  lemma CatchAllFirstHit(load: Loader, plan: seq<Probe>, repeat: bool, generateMips: bool, k: nat)
    requires k < |plan|
    requires forall j :: 0 <= j < k ==> !load(KeyOf(plan[j], generateMips)).Found?
    requires load(KeyOf(plan[k], generateMips)).Found?
    ensures RunPlan(load, CatchAll(plan), repeat, generateMips) ==
      Search(Hit(Texture(load(KeyOf(plan[k], generateMips)).asset, KeyOf(plan[k], generateMips), WrapFor(repeat))),
             seq(k + 1, j requires 0 <= j <= k => KeyOf(plan[j], generateMips)))
  {
    var c := CatchAll(plan);
    assert forall j :: 0 <= j < |c| ==> KeyOf(c[j], generateMips) == KeyOf(plan[j], generateMips);
    RunPlanFirstHit(load, c, repeat, generateMips, k);
    assert seq(k + 1, j requires 0 <= j <= k => KeyOf(c[j], generateMips)) ==
      seq(k + 1, j requires 0 <= j <= k => KeyOf(plan[j], generateMips));
  }

  /**
   * The intended search loads the first candidate, in the documented
   * order, that the asset manager finds.
   */
  lemma IntendedLoadsFirstPresent(load: Loader, path: string, current: GeneralDensity, repeat: bool, generateMips: bool, k: nat)
    requires SplitAtLastSlash(path).Some?
    requires var parts := SplitAtLastSlash(path).value;
      var plan := Plan(parts.prefix, parts.fileName, current);
      && k < |plan|
      && (forall j :: 0 <= j < k ==> !load(KeyOf(plan[j], generateMips)).Found?)
      && load(KeyOf(plan[k], generateMips)).Found?
    ensures var parts := SplitAtLastSlash(path).value;
      var plan := Plan(parts.prefix, parts.fileName, current);
      var key := KeyOf(plan[k], generateMips);
      ResolveIntended(load, path, Some(current), repeat, generateMips) ==
        Resolution(Loaded(Texture(load(key).asset, key, WrapFor(repeat))),
                   seq(k + 1, j requires 0 <= j <= k => KeyOf(plan[j], generateMips)))
  {
    var parts := SplitAtLastSlash(path).value;
    PlanShape(parts.prefix, parts.fileName, current);
    CatchAllFirstHit(load, Plan(parts.prefix, parts.fileName, current), repeat, generateMips, k);
  }


  // ---------------------------------------------------------------------
  // Start-up probing

  /** The extension token whose presence enables GLSL derivatives. */
  const DerivativesExtension: string := "GL_OES_standard_derivatives"

  /** The scan of the space-separated extension list, stopping at the first exact match. */
  method ScanExtensions(extensions: seq<string>) returns (found: bool)
    ensures found <==> DerivativesExtension in extensions
  {
    found := false;
    for i := 0 to |extensions|
      invariant !found
      invariant DerivativesExtension !in extensions[..i]
    {
      if extensions[i] == DerivativesExtension {
        found := true;
        break;
      }
    }
  }

  /** The TrueType atlas limit from the driver's maximum texture size. */
  function MaxResolutionFor(maxTextureSize: int): (r: int)
    ensures r == 1024 || r == 2048
    ensures r == 2048 <==> maxTextureSize >= 2048
    ensures maxTextureSize >= 1024 ==> r <= maxTextureSize
  {
    if maxTextureSize < 2048 then 1024 else 2048
  }

  /** The vendor test: a java.vendor.url containing "android" in any case. */
  predicate IsAndroidVendor(vendor: Option<string>)
  {
    vendor.Some? && Contains(ToLower(vendor.value), "android")
  }

  /**
   * An unset property is not Android; a set one is exactly when its
   * lower-cased text has "android" at some index, whatever the case of the URL.
   */
  lemma AndroidVendorTest(v: string)
    ensures !IsAndroidVendor(None)
    ensures IsAndroidVendor(Some(v)) <==> exists i :: OccursAt(ToLower(v), "android", i)
    ensures IsAndroidVendor(Some(v)) <==> IsAndroidVendor(Some(ToLower(v)))
  {
    ToLowerIdempotent(v);
    ContainsAt(ToLower(v), "android");
  }

  /** How String concatenation renders the vendor property: the text itself, or "null" when unset. */
  function VendorText(vendor: Option<string>): (s: string)
    ensures vendor.Some? ==> s == vendor.value
    ensures vendor.None? ==> s == "null"
  {
    match vendor
    case None => "null"
    case Some(v) => v
  }

  /** The exceptions initPlatform can end in. */
  datatype InitError =
    | IllegalState(message: string)   // not running on Android
    | StartupNullPointer              // the start-up log line reads an unset density bucket

  /** The configuration after setScreenDensity(d): a non-positive d changes nothing. */
  function AfterScreenDensity(s: Clarity.Settings, d: int): (t: Clarity.Settings)
    ensures d <= 0 ==> t == s
    ensures d > 0 ==> t.dpi == d && t.relDpiMod * Classify(d).BaseDpi() as real == d as real && t.dpiMod * 160.0 == d as real
    ensures d > 0 ==> t == s.(dpi := t.dpi, relDpiMod := t.relDpiMod, dpiMod := t.dpiMod)
  {
    if d <= 0 then s else s.(dpi := d, relDpiMod := RelativeScale(d), dpiMod := AbsoluteScale(d))
  }

  /** The bucket after setScreenDensity(d). */
  function BucketAfter(g: Option<GeneralDensity>, d: int): (r: Option<GeneralDensity>)
    ensures d > 0 ==> r.Some? && r.value == Classify(d)
    ensures d <= 0 ==> r == g
    ensures r.None? <==> g.None? && d <= 0
  {
    if d <= 0 then g else Some(Classify(d))
  }

  // ---------------------------------------------------------------------
  // The platform object

  class ClarityAndroid {
    /** The shared configuration this platform fills in. */
    const base: Clarity.AClarity
    /** The current bucket; null until a positive DPI is set. */
    var generalDensity: Option<GeneralDensity>

    /** Once a positive DPI is set, the bucket and both scale ratios are the ones it determines. */
    predicate Consistent()
      reads this, base
    {
      base.dpi > 0 ==>
        generalDensity == Some(Classify(base.dpi)) &&
        base.dpiMod == AbsoluteScale(base.dpi) && base.relDpiMod == RelativeScale(base.dpi)
    }

    constructor (preload: string)
      ensures fresh(base) && generalDensity == None
      ensures base.State() == Clarity.Settings(0.0, 0.0, 0, false, false, false, true, 2048, false, false, preload)
      ensures Consistent()
    {
      base := new Clarity.AClarity(preload);
      generalDensity := None;
    }

    /**
     * initPlatform with the probed values passed in: the vendor property,
     * the display's densityDpi, the GL extension string and the maximum
     * texture size.
     */
    method InitPlatform(vendor: Option<string>, densityDpi: int, extensions: string, maxTextureSize: int)
      returns (r: Outcome<InitError>)
      modifies this, base
      ensures !IsAndroidVendor(vendor) ==>
        r == Fail(IllegalState("Unknown Android Java vendor: " + VendorText(vendor))) &&
        unchanged(this) && unchanged(base)
      ensures IsAndroidVendor(vendor) ==>
        var supported := DerivativesExtension in Split(extensions, ' ');
        && base.State() == AfterScreenDensity(old(base.State()).(isMobile := true, isAndroid := true, dpi := densityDpi), densityDpi)
             .(derivativeSupported := supported, actualDerivativeSupported := supported,
               maxTrueTypeResolution := MaxResolutionFor(maxTextureSize))
        && generalDensity == BucketAfter(old(generalDensity), densityDpi)
        && r == (if generalDensity.None? then Fail(StartupNullPointer) else Pass)
        && Consistent()
      ensures old(Consistent()) ==> Consistent()
    {
      if !IsAndroidVendor(vendor) {
        return Fail(IllegalState("Unknown Android Java vendor: " + VendorText(vendor)));
      }
      base.isMobile := true;
      base.isAndroid := true;
      base.dpi := densityDpi;
      SetScreenDensity(base.dpi);
      ProbeGraphics(extensions, maxTextureSize);

      r := if generalDensity.None? then Fail(StartupNullPointer) else Pass;
    }

    /**
     * The GL half of initPlatform: derivatives are supported when the
     * space-separated extension string lists the standard-derivatives
     * token, and TrueType atlases are capped by the maximum texture size.
     */
    method ProbeGraphics(extensions: string, maxTextureSize: int)
      modifies base
      ensures var supported := DerivativesExtension in Split(extensions, ' ');
        base.State() == old(base.State()).(derivativeSupported := supported, actualDerivativeSupported := supported,
                                           maxTrueTypeResolution := MaxResolutionFor(maxTextureSize))
    {
      var ext := Split(extensions, ' ');
      base.derivativeSupported := false;
      var found := ScanExtensions(ext);
      if found {
        base.derivativeSupported := true;
      }
      base.actualDerivativeSupported := base.derivativeSupported;
      base.maxTrueTypeResolution := MaxResolutionFor(maxTextureSize);
    }

    /** getScreenDensity: the DPI, whose bucket is the current one once it is positive. */
    function GetScreenDensity(): (d: int)
      reads this, base
      ensures d == base.State().dpi
      ensures Consistent() && d > 0 ==> generalDensity == Some(Classify(d))
    {
      base.dpi
    }

    /**
     * setScreenDensity: a positive DPI sets dpi, the bucket, and the two
     * scale ratios; anything else is ignored.
     */
    method SetScreenDensity(densityDpi: int)
      modifies this, base
      ensures base.State() == AfterScreenDensity(old(base.State()), densityDpi)
      ensures generalDensity == BucketAfter(old(generalDensity), densityDpi)
      ensures densityDpi > 0 || old(Consistent()) ==> Consistent()
    {
      if densityDpi <= 0 {
        return;
      }
      base.dpi := densityDpi;
      var d := base.dpi;
      var rel: real;
      if d >= 640 {
        generalDensity := Some(Xxxhdpi);
        rel := d as real / 640.0;
      } else if d >= 480 {
        generalDensity := Some(Xxhdpi);
        rel := d as real / 480.0;
      } else if d >= 320 {
        generalDensity := Some(Xhdpi);
        rel := d as real / 320.0;
      } else if d >= 240 {
        generalDensity := Some(Hdpi);
        rel := d as real / 240.0;
      } else if d >= 160 {
        generalDensity := Some(Mdpi);
        rel := d as real / 160.0;
      } else {
        generalDensity := Some(Ldpi);
        if d > 0 {
          rel := d as real / 120.0;
        } else {
          rel := 1.0;
        }
      }
      assert generalDensity == Some(Classify(d)) && rel == RelativeScale(d);
      base.relDpiMod := rel;
      base.dpiMod := if d > 0 then d as real / 160.0 else 1.0;
    }

    /** getDensityScale: the DPI relative to 160, e.g. 2 at 320 DPI and 0.5 at 80 DPI. */
    function GetDensityScale(): (r: real)
      reads this, base
      ensures r == base.State().dpiMod
      ensures Consistent() && base.dpi > 0 ==> r * 160.0 == base.dpi as real
    {
      base.dpiMod
    }

    /** getDensityModifier: the bucket's base DPI times the modifier is the actual DPI. */
    function GetDensityModifier(): (r: real)
      reads this, base
      ensures r == base.State().relDpiMod
      ensures Consistent() && base.dpi > 0 ==>
        generalDensity.Some? && r * generalDensity.value.BaseDpi() as real == base.dpi as real
    {
      base.relDpiMod
    }

    /**
     * loadTextureDP: split the path, then search the current bucket and
     * those below it, the bare path, and the buckets above it. The
     * StringBuilder is the string `dpPath`, holding the prefix between probes.
     */
    method LoadTextureDP(path: string, repeat: bool, generateMips: bool, load: Loader)
      returns (r: TextureLoad, probed: seq<TextureKey>)
      ensures Resolution(r, probed) == Resolve(load, path, generalDensity, repeat, generateMips)
    {
      var slash := LastIndexOf(path, '/');
      var dpPath: string := "";
      var fileName := path;
      probed := [];
      if slash >= 0 {
        if slash == |path| - 1 {
          return Failed(TextureError(LoadErrorMessage(path))), probed;
        }
        fileName := path[slash + 1..];
        dpPath := dpPath + path[..slash + 1];
        assert dpPath == path[..slash + 1];
      }
      assert SplitAtLastSlash(path) == Some(PathParts(dpPath, fileName));
      if generalDensity.None? {
        return Failed(NullPointer), probed;
      }
      var current := generalDensity.value;
      ResolveInStages(load, path, dpPath, fileName, current, repeat, generateMips);

      var lower := SearchDownward(dpPath, fileName, current, load, repeat, generateMips);
      probed := lower.probed;
      if lower.end.Hit? {
        return Loaded(lower.end.texture), probed;
      }

      var key := TextureKey(dpPath + fileName, generateMips);
      match load(key) {
        case Found(a) =>
          probed := probed + [key];
          var wrap := WrapFor(repeat);
          return Loaded(Texture(a, key, wrap)), probed;
        case Null =>
        case NotFound =>  // AssetNotFoundException caught
      }
      var upper := SearchUpward(dpPath, fileName, current.Next(), load, repeat, generateMips);
      probed := probed + [key];
      AppendAssoc(lower.probed, [key], upper.probed);
      probed := probed + upper.probed;
      match upper.end {
        case Hit(t) => r := Loaded(t);
        case Raised(e) => r := Failed(e);
        case Exhausted => r := Failed(TextureError(LoadErrorMessage(path)));
      }
    }
  }

  /**
   * The do-while of loadTextureDP from `current` down to ldpi: append the
   * bucket, '/' and the file name to the builder `sb`, probe, and cut the
   * builder back to its length before; not-found is caught.
   */
  method SearchDownward(sb: string, fileName: string, current: GeneralDensity, load: Loader, repeat: bool, generateMips: bool)
    returns (s: Search)
    ensures s == RunPlan(load, DownProbes(sb, fileName, Some(current)), repeat, generateMips)
    ensures !s.end.Raised?
  {
    var dpPath := sb;
    var sbl := |dpPath|;
    var gdpi := Some(current);
    var probed: seq<TextureKey> := [];
    ghost var plan := DownProbes(sb, fileName, gdpi);
    ghost var rest := plan;
    assert [] + RunPlan(load, rest, repeat, generateMips).probed == RunPlan(load, rest, repeat, generateMips).probed;
    while gdpi.Some?
      invariant dpPath == sb && sbl == |sb|
      invariant rest == DownProbes(sb, fileName, gdpi)
      invariant RunPlan(load, plan, repeat, generateMips) == Prepend(probed, RunPlan(load, rest, repeat, generateMips))
      decreases if gdpi.Some? then gdpi.value.Rank() + 1 else 0
    {
      var g := gdpi.value;
      dpPath := dpPath + g.ToString();
      dpPath := dpPath + "/";
      dpPath := dpPath + fileName;
      var key := TextureKey(dpPath, generateMips);
      DownProbesCons(sb, fileName, g);
      DensityPathTruncates(sb, g, fileName);
      var t: Option<Asset>;
      match load(key) {
        case Found(a) => t := Some(a);
        case Null => t := None;
        case NotFound => t := None;  // AssetNotFoundException caught
      }
      if t.Some? {
        HitStep(load, plan, probed, rest, repeat, generateMips);
        probed := probed + [key];
        var wrap := WrapFor(repeat);
        return Search(Hit(Texture(t.value, key, wrap)), probed);
      }
      MissStep(load, plan, probed, rest, repeat, generateMips);
      probed := probed + [key];
      rest := rest[1..];
      gdpi := g.Previous();
      dpPath := dpPath[..sbl];
    }
    assert probed + [] == probed;
    return Search(Exhausted, probed);
  }

  /**
   * The while of loadTextureDP from bucket `start` up to xxxhdpi, built the
   * same way; a not-found here is not caught and ends the search.
   */
  method SearchUpward(sb: string, fileName: string, start: Option<GeneralDensity>, load: Loader, repeat: bool, generateMips: bool)
    returns (s: Search)
    ensures s == RunPlan(load, UpProbes(sb, fileName, start), repeat, generateMips)
  {
    var dpPath := sb;
    var sbl := |dpPath|;
    var gdpi := start;
    var probed: seq<TextureKey> := [];
    ghost var plan := UpProbes(sb, fileName, gdpi);
    ghost var rest := plan;
    assert [] + RunPlan(load, rest, repeat, generateMips).probed == RunPlan(load, rest, repeat, generateMips).probed;
    while gdpi.Some?
      invariant dpPath == sb && sbl == |sb|
      invariant rest == UpProbes(sb, fileName, gdpi)
      invariant RunPlan(load, plan, repeat, generateMips) == Prepend(probed, RunPlan(load, rest, repeat, generateMips))
      decreases if gdpi.Some? then 6 - gdpi.value.Rank() else 0
    {
      var g := gdpi.value;
      dpPath := dpPath + g.ToString();
      dpPath := dpPath + "/";
      dpPath := dpPath + fileName;
      var key := TextureKey(dpPath, generateMips);
      UpProbesCons(sb, fileName, g);
      DensityPathTruncates(sb, g, fileName);
      match load(key) {
        case NotFound =>
          // no catch here: AssetNotFoundException leaves loadTextureDP
          RaiseStep(load, plan, probed, rest, repeat, generateMips);
          probed := probed + [key];
          return Search(Raised(AssetNotFound(key.name)), probed);
        case Null =>
        case Found(a) =>
          HitStep(load, plan, probed, rest, repeat, generateMips);
          probed := probed + [key];
          var wrap := WrapFor(repeat);
          return Search(Hit(Texture(a, key, wrap)), probed);
      }
      MissStep(load, plan, probed, rest, repeat, generateMips);
      probed := probed + [key];
      rest := rest[1..];
      gdpi := g.Next();
      dpPath := dpPath[..sbl];
    }
    assert probed + [] == probed;
    return Search(Exhausted, probed);
  }
}
