/**
 * The probe-by-probe search both platforms' texture loaders perform: a
 * plan of candidate paths, tried in order against the asset manager, each
 * probe saying whether a not-found there lets the search go on.
 */
module Probing {
  import opened Assets

  /** One probe of the search: its path, and whether AssetNotFoundException counts as a miss there. */
  datatype Probe = Probe(path: string, catchesNotFound: bool)

  // ---------------------------------------------------------------------
  // Running the plan against the asset manager

  /** How a search ends: a texture, an exception, or every candidate missed. */
  datatype SearchEnd = Hit(texture: Texture) | Raised(error: LoadError) | Exhausted

  /** A search's end and the keys handed to the asset manager, in order. */
  datatype Search = Search(end: SearchEnd, probed: seq<TextureKey>)

  /** A search that first probed `keys`, all misses. */
  function Prepend(keys: seq<TextureKey>, s: Search): Search
  {
    Search(s.end, keys + s.probed)
  }

  /** The key each probe builds. */
  function KeyOf(p: Probe, generateMips: bool): TextureKey
  {
    TextureKey(p.path, generateMips)
  }

  /** A probe that lets the search go on: null, or not-found where it is caught. */
  predicate Miss(load: Loader, p: Probe, generateMips: bool)
  {
    var o := load(KeyOf(p, generateMips));
    o.Null? || (o.NotFound? && p.catchesNotFound)
  }

  /** Probe in order; stop at the first texture, or at a not-found the probe does not catch. */
  function RunPlan(load: Loader, plan: seq<Probe>, repeat: bool, generateMips: bool): (s: Search)
    ensures |s.probed| <= |plan|
    ensures s.end.Exhausted? ==> |s.probed| == |plan|
    ensures !s.end.Exhausted? ==> |s.probed| >= 1
    decreases |plan|
  {
    if plan == [] then Search(Exhausted, [])
    else
      var key := KeyOf(plan[0], generateMips);
      match load(key)
      case Found(a) => Search(Hit(Texture(a, key, WrapFor(repeat))), [key])
      case Null => Prepend([key], RunPlan(load, plan[1..], repeat, generateMips))
      case NotFound =>
        if plan[0].catchesNotFound then Prepend([key], RunPlan(load, plan[1..], repeat, generateMips))
        else Search(Raised(AssetNotFound(key.name)), [key])
  }

  /**
   * The keys probed are the plan's first keys, in order: all of them when
   * the search is exhausted, at least one otherwise.
   */
  lemma {:induction false} RunPlanProbes(load: Loader, plan: seq<Probe>, repeat: bool, generateMips: bool)
    ensures var s := RunPlan(load, plan, repeat, generateMips);
      forall i :: 0 <= i < |s.probed| ==> s.probed[i] == KeyOf(plan[i], generateMips)
    decreases |plan|
  {
    if plan != [] {
      RunPlanProbes(load, plan[1..], repeat, generateMips);
      var t := RunPlan(load, plan[1..], repeat, generateMips);
      var key := KeyOf(plan[0], generateMips);
      if Miss(load, plan[0], generateMips) {
        assert RunPlan(load, plan, repeat, generateMips) == Prepend([key], t);
        forall i | 1 <= i <= |t.probed| ensures ([key] + t.probed)[i] == KeyOf(plan[i], generateMips) {
          assert plan[1..][i - 1] == plan[i];
        }
      }
    }
  }

  /** Every probe before the last one of a run was a miss; in an exhausted run every probe was. */
  lemma {:induction false} RunPlanMisses(load: Loader, plan: seq<Probe>, repeat: bool, generateMips: bool)
    ensures var s := RunPlan(load, plan, repeat, generateMips);
      && (forall j :: 0 <= j < |s.probed| - 1 ==> Miss(load, plan[j], generateMips))
      && (s.end.Exhausted? ==> forall j :: 0 <= j < |plan| ==> Miss(load, plan[j], generateMips))
    decreases |plan|
  {
    if plan != [] && Miss(load, plan[0], generateMips) {
      RunPlanMisses(load, plan[1..], repeat, generateMips);
      var t := RunPlan(load, plan[1..], repeat, generateMips);
      var s := RunPlan(load, plan, repeat, generateMips);
      assert s == Prepend([KeyOf(plan[0], generateMips)], t);
      forall j | 1 <= j < |plan| ensures plan[j] == plan[1..][j - 1] {
      }
    }
  }

  /**
   * How a run ends: a hit is the last probe's texture with the requested
   * wrap; an exception is a not-found at a probe that does not catch it.
   */
  lemma {:induction false} RunPlanEnd(load: Loader, plan: seq<Probe>, repeat: bool, generateMips: bool)
    ensures var s := RunPlan(load, plan, repeat, generateMips);
      && (s.end.Hit? ==>
            var last := KeyOf(plan[|s.probed| - 1], generateMips);
            load(last).Found? && s.end.texture == Texture(load(last).asset, last, WrapFor(repeat)))
      && (s.end.Raised? ==>
            var last := KeyOf(plan[|s.probed| - 1], generateMips);
            load(last).NotFound? && !plan[|s.probed| - 1].catchesNotFound && s.end.error == AssetNotFound(last.name))
    decreases |plan|
  {
    if plan != [] && Miss(load, plan[0], generateMips) {
      RunPlanEnd(load, plan[1..], repeat, generateMips);
      var t := RunPlan(load, plan[1..], repeat, generateMips);
      assert RunPlan(load, plan, repeat, generateMips) == Prepend([KeyOf(plan[0], generateMips)], t);
      if !t.end.Exhausted? {
        assert plan[1..][|t.probed| - 1] == plan[|t.probed|];
      }
    }
  }

  /** One miss more: the search goes on with the rest of the plan. */
  lemma MissStep(load: Loader, plan: seq<Probe>, probed: seq<TextureKey>, rest: seq<Probe>, repeat: bool, generateMips: bool)
    requires rest != [] && Miss(load, rest[0], generateMips)
    requires RunPlan(load, plan, repeat, generateMips) == Prepend(probed, RunPlan(load, rest, repeat, generateMips))
    ensures RunPlan(load, plan, repeat, generateMips) ==
      Prepend(probed + [KeyOf(rest[0], generateMips)], RunPlan(load, rest[1..], repeat, generateMips))
  {
    var key := KeyOf(rest[0], generateMips);
    var t := RunPlan(load, rest[1..], repeat, generateMips);
    RunPlanUnfold(load, rest, repeat, generateMips);
    assert Step(load, rest[0], t, repeat, generateMips) == Prepend([key], t);
    AppendAssoc(probed, [key], t.probed);
  }

  /** A probe that finds a texture ends the search with it. */
  lemma HitStep(load: Loader, plan: seq<Probe>, probed: seq<TextureKey>, rest: seq<Probe>, repeat: bool, generateMips: bool)
    requires rest != [] && load(KeyOf(rest[0], generateMips)).Found?
    requires RunPlan(load, plan, repeat, generateMips) == Prepend(probed, RunPlan(load, rest, repeat, generateMips))
    ensures var key := KeyOf(rest[0], generateMips);
      RunPlan(load, plan, repeat, generateMips) ==
        Search(Hit(Texture(load(key).asset, key, WrapFor(repeat))), probed + [key])
  {
  }

  /** A not-found the probe does not catch ends the search with that exception. */
  lemma RaiseStep(load: Loader, plan: seq<Probe>, probed: seq<TextureKey>, rest: seq<Probe>, repeat: bool, generateMips: bool)
    requires rest != [] && !rest[0].catchesNotFound && load(KeyOf(rest[0], generateMips)).NotFound?
    requires RunPlan(load, plan, repeat, generateMips) == Prepend(probed, RunPlan(load, rest, repeat, generateMips))
    ensures RunPlan(load, plan, repeat, generateMips) ==
      Search(Raised(AssetNotFound(rest[0].path)), probed + [KeyOf(rest[0], generateMips)])
  {
  }

  /** The converse: after misses only, the first probe that finds a texture ends the search with it. */
  lemma {:induction false} RunPlanFirstHit(load: Loader, plan: seq<Probe>, repeat: bool, generateMips: bool, k: nat)
    requires k < |plan|
    requires forall j :: 0 <= j < k ==> Miss(load, plan[j], generateMips)
    requires load(KeyOf(plan[k], generateMips)).Found?
    ensures RunPlan(load, plan, repeat, generateMips) ==
      Search(Hit(Texture(load(KeyOf(plan[k], generateMips)).asset, KeyOf(plan[k], generateMips), WrapFor(repeat))),
             seq(k + 1, j requires 0 <= j <= k => KeyOf(plan[j], generateMips)))
    decreases k
  {
    if k > 0 {
      var key := KeyOf(plan[0], generateMips);
      assert Miss(load, plan[0], generateMips);
      forall j | 0 <= j < k - 1 ensures Miss(load, plan[1..][j], generateMips) {
        assert plan[1..][j] == plan[j + 1];
      }
      RunPlanFirstHit(load, plan[1..], repeat, generateMips, k - 1);
      assert plan[1..][k - 1] == plan[k];
    }
  }

  /** After misses only, a not-found at a probe that does not catch it ends the search with that exception. */
  lemma {:induction false} RunPlanFirstRaise(load: Loader, plan: seq<Probe>, repeat: bool, generateMips: bool, k: nat)
    requires k < |plan|
    requires forall j :: 0 <= j < k ==> Miss(load, plan[j], generateMips)
    requires load(KeyOf(plan[k], generateMips)).NotFound? && !plan[k].catchesNotFound
    ensures RunPlan(load, plan, repeat, generateMips) ==
      Search(Raised(AssetNotFound(plan[k].path)), seq(k + 1, j requires 0 <= j <= k => KeyOf(plan[j], generateMips)))
    decreases k
  {
    if k > 0 {
      assert Miss(load, plan[0], generateMips);
      forall j | 0 <= j < k - 1 ensures Miss(load, plan[1..][j], generateMips) {
        assert plan[1..][j] == plan[j + 1];
      }
      RunPlanFirstRaise(load, plan[1..], repeat, generateMips, k - 1);
      assert plan[1..][k - 1] == plan[k];
    }
  }

  /** A search is exhausted exactly when every probe of the plan misses. */
  lemma {:induction false} RunPlanExhausted(load: Loader, plan: seq<Probe>, repeat: bool, generateMips: bool)
    ensures RunPlan(load, plan, repeat, generateMips).end.Exhausted? <==>
      forall j :: 0 <= j < |plan| ==> Miss(load, plan[j], generateMips)
    decreases |plan|
  {
    if plan != [] {
      RunPlanExhausted(load, plan[1..], repeat, generateMips);
      if Miss(load, plan[0], generateMips) {
        assert forall j :: 1 <= j < |plan| ==> plan[j] == plan[1..][j - 1];
      }
    }
  }

  /** One probe of a run, given how the rest of the plan would go. */
  function Step(load: Loader, p: Probe, next: Search, repeat: bool, generateMips: bool): Search
  {
    var key := KeyOf(p, generateMips);
    match load(key)
    case Found(a) => Search(Hit(Texture(a, key, WrapFor(repeat))), [key])
    case Null => Prepend([key], next)
    case NotFound =>
      if p.catchesNotFound then Prepend([key], next) else Search(Raised(AssetNotFound(key.name)), [key])
  }

  /** A run of `s` followed by a run of `u`: the second counts only when the first is exhausted. */
  function Then(s: Search, u: Search): Search
  {
    if s.end.Exhausted? then Prepend(s.probed, u) else s
  }

  lemma RunPlanUnfold(load: Loader, plan: seq<Probe>, repeat: bool, generateMips: bool)
    requires plan != []
    ensures RunPlan(load, plan, repeat, generateMips) ==
      Step(load, plan[0], RunPlan(load, plan[1..], repeat, generateMips), repeat, generateMips)
  {
  }

  lemma StepThen(load: Loader, p: Probe, t: Search, u: Search, repeat: bool, generateMips: bool)
    ensures Step(load, p, Then(t, u), repeat, generateMips) == Then(Step(load, p, t, repeat, generateMips), u)
  {
    var key := KeyOf(p, generateMips);
    assert [key] + (t.probed + u.probed) == ([key] + t.probed) + u.probed;
  }

  /** Two plans back to back: the second is searched only when the first is exhausted. */
  lemma {:induction false} RunPlanAppend(load: Loader, a: seq<Probe>, b: seq<Probe>, repeat: bool, generateMips: bool)
    ensures RunPlan(load, a + b, repeat, generateMips) ==
      Then(RunPlan(load, a, repeat, generateMips), RunPlan(load, b, repeat, generateMips))
    decreases |a|
  {
    var u := RunPlan(load, b, repeat, generateMips);
    if a == [] {
      assert a + b == b;
      assert [] + u.probed == u.probed;
    } else {
      var ab := a + b;
      assert ab[0] == a[0] && ab[1..] == a[1..] + b;
      RunPlanUnfold(load, ab, repeat, generateMips);
      RunPlanUnfold(load, a, repeat, generateMips);
      RunPlanAppend(load, a[1..], b, repeat, generateMips);
      StepThen(load, a[0], RunPlan(load, a[1..], repeat, generateMips), u, repeat, generateMips);
    }
  }

  /** The result of loadTextureDP and the keys it handed to the asset manager. */
  datatype Resolution = Resolution(result: TextureLoad, probed: seq<TextureKey>)

  /** A finished search as loadTextureDP reports it: exhaustion throws with the requested path. */
  function Conclude(path: string, s: Search): (r: Resolution)
    ensures r.probed == s.probed
    ensures r.result.Loaded? <==> s.end.Hit?
    ensures s.end.Hit? ==> r.result.texture == s.end.texture
    ensures s.end.Raised? ==> r.result == Failed(s.end.error)
    ensures s.end.Exhausted? ==> r.result == Failed(TextureError(LoadErrorMessage(path)))
  {
    var result := match s.end
      case Hit(t) => Loaded(t)
      case Raised(e) => Failed(e)
      case Exhausted => Failed(TextureError(LoadErrorMessage(path)));
    Resolution(result, s.probed)
  }

  /**
   * Any run of a plan, reported: as many keys as the plan at most, none only
   * for an empty plan, a texture from the last key probed, and a not-found
   * naming that key; never a null pointer.
   */
  lemma ConcludeRun(load: Loader, path: string, plan: seq<Probe>, repeat: bool, generateMips: bool)
    ensures var r := Conclude(path, RunPlan(load, plan, repeat, generateMips));
      && |r.probed| <= |plan|
      && (r.probed == [] <==> plan == [])
      && r.result != Failed(NullPointer)
      && (r.result.Loaded? ==>
            r.probed != [] &&
            var last := r.probed[|r.probed| - 1];
            load(last).Found? && r.result.texture == Texture(load(last).asset, last, WrapFor(repeat)))
      && (r.result.Failed? && r.result.error.AssetNotFound? ==>
            r.probed != [] &&
            var last := r.probed[|r.probed| - 1];
            load(last) == NotFound && r.result.error.name == last.name)
  {
    RunPlanProbes(load, plan, repeat, generateMips);
    RunPlanEnd(load, plan, repeat, generateMips);
  }

  lemma AppendAssoc<T>(a: seq<T>, b: seq<T>, c: seq<T>)
    ensures a + b + c == a + (b + c)
  {
  }

  /** Two misses, then a texture at the third probe: the search ends there with three keys probed. */
  lemma HitAtThird(load: Loader, plan: seq<Probe>, repeat: bool, generateMips: bool)
    requires |plan| >= 3
    requires Miss(load, plan[0], generateMips) && Miss(load, plan[1], generateMips)
    requires load(KeyOf(plan[2], generateMips)).Found?
    ensures var key := KeyOf(plan[2], generateMips);
      RunPlan(load, plan, repeat, generateMips) ==
        Search(Hit(Texture(load(key).asset, key, WrapFor(repeat))),
               [KeyOf(plan[0], generateMips), KeyOf(plan[1], generateMips), key])
  {
    RunPlanFirstHit(load, plan, repeat, generateMips, 2);
  }

  /** Three misses, then a not-found the fourth probe does not catch: the search ends there. */
  lemma RaiseAtFourth(load: Loader, plan: seq<Probe>, repeat: bool, generateMips: bool)
    requires |plan| >= 4
    requires Miss(load, plan[0], generateMips) && Miss(load, plan[1], generateMips) && Miss(load, plan[2], generateMips)
    requires !plan[3].catchesNotFound && load(KeyOf(plan[3], generateMips)).NotFound?
    ensures RunPlan(load, plan, repeat, generateMips).end == Raised(AssetNotFound(plan[3].path))
  {
    RunPlanFirstRaise(load, plan, repeat, generateMips, 3);
  }
}
