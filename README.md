# Clarity: screen density and asset selection for jMonkeyEngine, in Dafny

This project models the "Clarity" layer of a small jMonkeyEngine
application. The layer is a configuration object that every platform fills
in at start-up: whether the device is mobile, its screen density, and
whether the GPU supports GLSL derivatives. Fonts, materials and textures are
then loaded according to those settings.

- **Density** (`Density.dfy`) covers the six Android density buckets (ldpi
  to xxxhdpi). Each bucket has a previous, a next and a directory name. A
  raw DPI is classified into a bucket plus two scale ratios.
- **Assets** (`Assets.dfy`) holds the values the texture loaders exchange
  with the engine's asset manager. The asset manager is a caller-supplied
  function that, for every texture key, returns a texture, returns null, or
  throws `AssetNotFoundException`.
- **Clarity** (`AClarity.dfy`) is the shared configuration class:
  - the derivative-support gate;
  - the preload, lock and keep setters and getters;
  - case-insensitive font-style names;
  - `.j3m` material dispatch;
  - the desktop point-size remap;
  - the DPI each font-loading overload requests.
- **Android** (`ClarityAndroid.dfy`) is the Android platform:
  - the start-up probe of vendor, display density, GL extensions and
    maximum texture size;
  - `setScreenDensity`;
  - the density-bucket texture search of `loadTextureDP`.

  The search is an imperative method whose two loops build candidate
  paths in a string buffer. It is proved equal to a pure run of a
  seven-probe plan: the current bucket down to ldpi, then the unqualified
  path, then the buckets above. The run's own properties are proved as
  lemmas.
- **Probing** (`Probing.dfy`) is the probe-by-probe search both platforms'
  texture loaders perform. A plan is a sequence of candidate paths, each
  saying whether a not-found there lets the search go on. The module holds
  the run of a plan against the asset manager and its lemmas.
- **Desktop** (`ClarityDesktop.dfy`) is the desktop platform: fixed
  start-up values and a single-probe texture load.
- **TrueTypeText** (`ClarityTrueTypeText.dfy`) is the TrueType text node:
  - the memoising bitmap-material cache, a map updated in place;
  - the mesh material;
  - the kerning thresholds;
  - the string names of alignments and wrap modes;
  - the `maxLines`, `maxHeight` and `font` setters;
  - `setText`, `invalidate` and `update`;
  - the per-vertex colour array.

  The node is a class. Each method's new state is stated as a pure
  transition function of the old state, and the lemmas are stated over
  those functions.

`Wrappers.dfy` holds `Option` and `Outcome`. `Strings.dfy` holds the few
`java.lang.String` operations the code uses.

The code is followed wherever its comments promise something else:

- The doc comment of `loadTextureDP` (ClarityAndroid.java:289-296) says the
  search goes on upward until the texture is found. In the code only the
  downward stage and the unqualified probe catch `AssetNotFoundException`
  (348-352, 371-375). The upward probe at 395 does not, so a missing bucket
  above the current one ends the search. The model reproduces this
  asymmetry; see "## Findings".
- The same doc comment (298-299) says the search is bypassed off mobile,
  but that check is commented out (324-325). The Android class always
  searches.

## Model

A = core/src/main/java/org/noncom/jme_ttf/clarity/AClarity.java,
D = app/src/main/java/org/noncom/jme_ttf/clarity/ClarityAndroid.java,
S = desktop/src/main/java/org/noncom/jme_ttf/clarity/ClarityDesktop.java,
K = core/src/main/java/org/noncom/jme_ttf/clarity/ClarityTrueTypeText.kt
(the cells below spell them out).

| member | source | states |
|---|---|---|
| Strings.LowerChar | core/src/main/java/org/noncom/jme_ttf/clarity/AClarity.java:302 | upper-case ASCII letters move to lower case, every other character is kept, and no result is upper case |
| Strings.ToLower | core/src/main/java/org/noncom/jme_ttf/clarity/AClarity.java:302 | `toLowerCase` keeps the length and lower-cases each character in place |
| Strings.ToLowerIdempotent | core/src/main/java/org/noncom/jme_ttf/clarity/AClarity.java:302 | lower-casing twice is lower-casing once, which makes the tests on a lower-cased string case-insensitive |
| Strings.LastIndexOf | app/src/main/java/org/noncom/jme_ttf/clarity/ClarityAndroid.java:327 | `lastIndexOf`: -1 or an index holding the character, with no occurrence after it |
| Strings.EndsWith | core/src/main/java/org/noncom/jme_ttf/clarity/AClarity.java:319 | `endsWith`: a true answer means the string is some text followed by the suffix |
| Strings.EndsWithAppend | core/src/main/java/org/noncom/jme_ttf/clarity/AClarity.java:319 | any text followed by the suffix ends with it, the converse of `EndsWith`'s contract |
| Strings.ContainsAt | app/src/main/java/org/noncom/jme_ttf/clarity/ClarityAndroid.java:138 | `contains` holds exactly when the word occurs at some index of the string |
| Strings.Split | app/src/main/java/org/noncom/jme_ttf/clarity/ClarityAndroid.java:152 | `split(" ")` gives at least one field, and no field contains the separator |
| Strings.JoinSplit | app/src/main/java/org/noncom/jme_ttf/clarity/ClarityAndroid.java:152 | joining the fields with the separator gives back the original string |
| Density.GeneralDensity.Rank | app/src/main/java/org/noncom/jme_ttf/clarity/ClarityAndroid.java:66-72 | the enum's order, ldpi lowest, as a position below 6 |
| Density.GeneralDensity.BaseDpi | app/src/main/java/org/noncom/jme_ttf/clarity/ClarityAndroid.java:201-223 | the bucket thresholds 120, 160, 240, 320, 480 and 640, in rank order |
| Density.GeneralDensity.Previous | app/src/main/java/org/noncom/jme_ttf/clarity/ClarityAndroid.java:74-91 | null exactly at ldpi; otherwise the bucket one rank lower, whose `next` is this one |
| Density.GeneralDensity.Next | app/src/main/java/org/noncom/jme_ttf/clarity/ClarityAndroid.java:93-110 | null exactly at xxxhdpi; otherwise the bucket one rank higher |
| Density.GeneralDensity.ToString | app/src/main/java/org/noncom/jme_ttf/clarity/ClarityAndroid.java:112-130 | the directory name: at least four characters, no '/', ending in "dpi" |
| Density.RankDetermines | app/src/main/java/org/noncom/jme_ttf/clarity/ClarityAndroid.java:66-72 | a bucket is determined by its rank, and base DPIs increase strictly with rank |
| Density.PreviousNextInverse | app/src/main/java/org/noncom/jme_ttf/clarity/ClarityAndroid.java:74-110 | `previous().next()` is the identity except at ldpi, `next().previous()` is the identity except at xxxhdpi, and those two ends are null |
| Density.ToStringInjective | app/src/main/java/org/noncom/jme_ttf/clarity/ClarityAndroid.java:112-130 | different buckets have different directory names |
| Density.DirectoryNames | app/src/main/java/org/noncom/jme_ttf/clarity/ClarityAndroid.java:113-127 | each bucket's directory name is "ldpi" … "xxxhdpi" in rank order |
| Density.Classify | app/src/main/java/org/noncom/jme_ttf/clarity/ClarityAndroid.java:201-223 | ldpi exactly below 160; otherwise base ≤ dpi; and dpi is below the next bucket's base |
| Density.ClassifyIsLargest | app/src/main/java/org/noncom/jme_ttf/clarity/ClarityAndroid.java:201-223 | every bucket from mdpi up whose base fits under the DPI ranks no higher than the chosen one |
| Density.ClassifyMonotone | app/src/main/java/org/noncom/jme_ttf/clarity/ClarityAndroid.java:201-223 | a larger DPI never gives a lower bucket |
| Density.RelativeScale | app/src/main/java/org/noncom/jme_ttf/clarity/ClarityAndroid.java:201-223 | `relDpiMod` times the chosen bucket's base is the DPI; 1 for a non-positive DPI |
| Density.AbsoluteScale | app/src/main/java/org/noncom/jme_ttf/clarity/ClarityAndroid.java:225-230 | `dpiMod` times 160 is the DPI; 1 for a non-positive DPI |
| Density.RelativeScaleBounds | app/src/main/java/org/noncom/jme_ttf/clarity/ClarityAndroid.java:201-223 | from 160 DPI up, the relative scale is at least 1 and below next base / base |
| Density.ClassifyExamples | app/src/main/java/org/noncom/jme_ttf/clarity/ClarityAndroid.java:233-236 | the documented values: 320 DPI gives scale 2 and 80 DPI gives 0.5; also 160 is mdpi at 1 and 240 is hdpi at 1.5 |
| Assets.WrapFor | app/src/main/java/org/noncom/jme_ttf/clarity/ClarityAndroid.java:355-358 | the wrap is Repeat exactly when `repeat` is set, otherwise EdgeClamp |
| Assets.LoadErrorMessage | app/src/main/java/org/noncom/jme_ttf/clarity/ClarityAndroid.java:410 | the RuntimeException message ends with the requested path |
| Clarity.FontStyle | core/src/main/java/org/noncom/jme_ttf/clarity/AClarity.java:301-316 | BoldItalic exactly for "bolditalic" or "italicbold" after lower-casing; Bold and Italic exactly for their names; Plain otherwise |
| Clarity.FontStyleIgnoresCase | core/src/main/java/org/noncom/jme_ttf/clarity/AClarity.java:301-316 | lower-casing the name first never changes the style |
| Clarity.FontStyleMixedCase | core/src/main/java/org/noncom/jme_ttf/clarity/AClarity.java:309-310 | "BoldItalic", in mixed case, gives BoldItalic |
| Clarity.FontStyleOtherOrder | core/src/main/java/org/noncom/jme_ttf/clarity/AClarity.java:311-312 | "ItalicBold" gives BoldItalic as well |
| Clarity.FontStyleUnknown | core/src/main/java/org/noncom/jme_ttf/clarity/AClarity.java:313-314 | an unrecognised name gives Plain |
| Clarity.LoadMaterial | core/src/main/java/org/noncom/jme_ttf/clarity/AClarity.java:318-322 | a material file exactly when the lower-cased path ends with ".j3m", otherwise a material built from the path as its definition |
| Clarity.LoadMaterialIgnoresCase | core/src/main/java/org/noncom/jme_ttf/clarity/AClarity.java:318-322 | the dispatch depends on the path only up to case |
| Clarity.RemapPointSize | core/src/main/java/org/noncom/jme_ttf/clarity/AClarity.java:237-247 | unchanged with scale 1 on mobile or from 53 up; floor(p / 0.73) below 32 and floor(p / 0.84) from 32 to 52, with scale p / actualSize |
| Clarity.RemapNeverShrinks | core/src/main/java/org/noncom/jme_ttf/clarity/AClarity.java:237-247 | for a size ≥ 0 the requested size is never smaller, and never 0 for a positive size |
| Clarity.RemapExamples | core/src/main/java/org/noncom/jme_ttf/clarity/AClarity.java:237-247 | the sizes requested at both ends of each band: 12→16, 31→42, 32→38, 52→61, 53→53, and 12 on mobile |
| Clarity.AClarity.constructor | core/src/main/java/org/noncom/jme_ttf/clarity/AClarity.java:25-36 | every field initialiser, with the preload text passed in |
| Clarity.AClarity.SetSupportDerivatives | core/src/main/java/org/noncom/jme_ttf/clarity/AClarity.java:76-80 | nothing changes without device support; with it, only `derivativeSupported` changes, to the argument |
| Clarity.AClarity.IsSupportDerivatives | core/src/main/java/org/noncom/jme_ttf/clarity/AClarity.java:91-93 | returns the enabled flag; `SetSupportDerivatives` states that it becomes the argument only where the device supports derivatives |
| Clarity.AClarity.SetTrueTypePreloadCharacters | core/src/main/java/org/noncom/jme_ttf/clarity/AClarity.java:102-116 | only the preload characters change, and the getter returns them |
| Clarity.AClarity.GetTrueTypePreloadCharacters | core/src/main/java/org/noncom/jme_ttf/clarity/AClarity.java:114-116 | the stored preload characters, as the configuration records them |
| Clarity.AClarity.SetLockTrueType | core/src/main/java/org/noncom/jme_ttf/clarity/AClarity.java:127-143 | only the lock flag changes, and the getter returns it |
| Clarity.AClarity.GetLockTrueType | core/src/main/java/org/noncom/jme_ttf/clarity/AClarity.java:141-143 | the stored lock flag, as the configuration records it |
| Clarity.AClarity.KeepTrueType | core/src/main/java/org/noncom/jme_ttf/clarity/AClarity.java:151-166 | only the keep flag changes, and `isKeepTrueType` returns it |
| Clarity.AClarity.IsKeepTrueType | core/src/main/java/org/noncom/jme_ttf/clarity/AClarity.java:164-166 | the stored keep flag, as the configuration records it |
| Clarity.AClarity.LoadFontAt | core/src/main/java/org/noncom/jme_ttf/clarity/AClarity.java:236-257 | the key carries path, style, outline and DPI as given, the remapped size, the configured preload and resolution, and a weak reference unless fonts are kept; scale and lock come from the remap and the lock flag |
| Clarity.AClarity.LoadFont | core/src/main/java/org/noncom/jme_ttf/clarity/AClarity.java:220-222 | the four-argument overload is `LoadFontAt` at 72 DPI: the given outline, and a weak reference unless fonts are kept |
| Clarity.AClarity.LoadFontDP | core/src/main/java/org/noncom/jme_ttf/clarity/AClarity.java:183-185 | is `LoadFontAt` at the configured screen DPI, with the given outline |
| Clarity.AClarity.LoadMeshFontAt | core/src/main/java/org/noncom/jme_ttf/clarity/AClarity.java:287-299 | the size and DPI as given, scale 1, the lock flag, the preload characters, and a weak reference unless fonts are kept |
| Clarity.AClarity.LoadMeshFont | core/src/main/java/org/noncom/jme_ttf/clarity/AClarity.java:271-273 | the three-argument overload is `LoadMeshFontAt` at 72 DPI, with the size as given |
| Clarity.AClarity.LoadMeshFontDP | core/src/main/java/org/noncom/jme_ttf/clarity/AClarity.java:200-202 | is `LoadMeshFontAt` at the configured screen DPI, with the size as given and the outline dropped |
| Clarity.AClarity.MeshFontDPIgnoresOutline | core/src/main/java/org/noncom/jme_ttf/clarity/AClarity.java:200-202 | the outline argument of `loadMeshFontDP` has no effect |
| Android.SplitAtLastSlash | app/src/main/java/org/noncom/jme_ttf/clarity/ClarityAndroid.java:327-336 | rejected exactly when '/' is the last character; otherwise prefix + file name is the path, the file name has no '/', the prefix is empty or ends in '/', and with no '/' the prefix is empty |
| Android.SplitJoined | app/src/main/java/org/noncom/jme_ttf/clarity/ClarityAndroid.java:327-336 | a directory prefix joined to a plain file name splits back into exactly those two parts |
| Android.DensityPath | app/src/main/java/org/noncom/jme_ttf/clarity/ClarityAndroid.java:341-343 | a bucket candidate is as long as the prefix, the bucket directory, one '/' and the file name together |
| Android.CandidatePath | app/src/main/java/org/noncom/jme_ttf/clarity/ClarityAndroid.java:338-408 | each of the seven candidates starts with the prefix and ends with the file name, and it is the bare prefix + file name exactly at position rank + 1 |
| Android.Plan | app/src/main/java/org/noncom/jme_ttf/clarity/ClarityAndroid.java:338-408 | seven probes, the bare path at position rank + 1 |
| Android.DownProbesShape | app/src/main/java/org/noncom/jme_ttf/clarity/ClarityAndroid.java:338-365 | the downward stage makes rank + 1 probes, from the current bucket down to ldpi, each catching not-found |
| Android.UpProbesShape | app/src/main/java/org/noncom/jme_ttf/clarity/ClarityAndroid.java:386-408 | the upward stage probes each bucket from the start bucket up to xxxhdpi, none catching not-found |
| Android.PlanShape | app/src/main/java/org/noncom/jme_ttf/clarity/ClarityAndroid.java:338-408 | seven probes in the documented order, each rebuilt from the same prefix; exactly the first rank + 2 treat not-found as a miss |
| Android.PlanCoversEveryBucket | app/src/main/java/org/noncom/jme_ttf/clarity/ClarityAndroid.java:301-305 | every bucket's directory is among the candidates |
| Android.DensityPathDistinct | app/src/main/java/org/noncom/jme_ttf/clarity/ClarityAndroid.java:341-343 | two buckets give the same candidate exactly when they are the same bucket, and no bucket candidate is the unqualified path |
| Probing.RunPlan | app/src/main/java/org/noncom/jme_ttf/clarity/ClarityAndroid.java:345-360 | a run probes at most the whole plan, all of it when exhausted, and at least one key when it does not end exhausted |
| Probing.RunPlanProbes | app/src/main/java/org/noncom/jme_ttf/clarity/ClarityAndroid.java:345-346 | the keys probed are the plan's first keys, in order, each with the caller's mip flag |
| Probing.RunPlanMisses | app/src/main/java/org/noncom/jme_ttf/clarity/ClarityAndroid.java:348-365 | every probe before the last was a miss, and in an exhausted run every probe was |
| Probing.RunPlanEnd | app/src/main/java/org/noncom/jme_ttf/clarity/ClarityAndroid.java:354-360 | a hit is the last probe's texture with the requested wrap; an exception is a not-found at a probe that does not catch it |
| Probing.RunPlanFirstHit | app/src/main/java/org/noncom/jme_ttf/clarity/ClarityAndroid.java:354-361 | after misses only, the first probe that finds a texture ends the search with it, and nothing after it is probed |
| Probing.RunPlanFirstRaise | app/src/main/java/org/noncom/jme_ttf/clarity/ClarityAndroid.java:395 | after misses only, a not-found at a probe that does not catch it ends the search with that exception |
| Probing.RunPlanExhausted | app/src/main/java/org/noncom/jme_ttf/clarity/ClarityAndroid.java:365-410 | a search is exhausted exactly when every probe misses |
| Probing.RunPlanAppend | app/src/main/java/org/noncom/jme_ttf/clarity/ClarityAndroid.java:338-408 | two stages run back to back: the second one starts only when the first is exhausted |
| Probing.Conclude | app/src/main/java/org/noncom/jme_ttf/clarity/ClarityAndroid.java:395-410 | a hit is returned as the texture, an exception propagates unchanged, exhaustion throws the loader error naming the requested path, and the probed keys are kept |
| Probing.ConcludeRun | app/src/main/java/org/noncom/jme_ttf/clarity/ClarityAndroid.java:338-410 | any reported run probes no more keys than the plan holds and none only for an empty plan; it never fails with a null pointer; a texture is the last probed key's asset with the requested wrap; a not-found failure names the last probed key, which the asset manager did not find |
| Android.Candidates | app/src/main/java/org/noncom/jme_ttf/clarity/ClarityAndroid.java:338-408 | seven probes in either form: as written, or with every stage catching not-found |
| Android.ResolveWith | app/src/main/java/org/noncom/jme_ttf/clarity/ClarityAndroid.java:327-410 | the search both forms share, with the same guarantees as `Resolve`: at most seven probes; none exactly when the path ends in '/' or no bucket is set, the latter failing with a null pointer; a loaded texture is the last probed key's asset with the requested wrap; a not-found failure names the last probed key |
| Android.Resolve | app/src/main/java/org/noncom/jme_ttf/clarity/ClarityAndroid.java:327-410 | at most seven probes; none exactly when the path ends in '/' or no bucket is set, the latter failing with a null-pointer; a loaded texture is the last probed key's asset with the requested wrap; a not-found failure names the last probed key, which the asset manager did not find |
| Android.ResolveRuns | app/src/main/java/org/noncom/jme_ttf/clarity/ClarityAndroid.java:338-410 | on a well-formed path with a bucket set, `loadTextureDP` reports the run of the seven-candidate plan |
| Android.ResolveIntendedRuns | app/src/main/java/org/noncom/jme_ttf/clarity/ClarityAndroid.java:289-296 | on a well-formed path with a bucket set, the documented search reports the run of the same plan with every probe catching not-found |
| Android.PlanRegrouped | app/src/main/java/org/noncom/jme_ttf/clarity/ClarityAndroid.java:338-408 | the plan is the downward stage followed by the bare probe and then the upward stage |
| Android.ResolveInStages | app/src/main/java/org/noncom/jme_ttf/clarity/ClarityAndroid.java:338-410 | `loadTextureDP` on a well-formed path is the downward stage, then the unqualified probe, then the upward stage |
| Android.ResolveRejectsDirectory | app/src/main/java/org/noncom/jme_ttf/clarity/ClarityAndroid.java:330-332 | a path ending in '/' fails with the path in the message, before any probe |
| Android.ResolveProbesInOrder | app/src/main/java/org/noncom/jme_ttf/clarity/ClarityAndroid.java:338-410 | 1 to 7 probes, which are the documented candidates in order with the caller's mip flag; a loaded texture is the last probe's, wrapped as requested; the search fails with its own message only after all seven probes |
| Android.ExampleLowerVariant | app/src/main/java/org/noncom/jme_ttf/clarity/ClarityAndroid.java:301-305 | at hdpi, with only the ldpi variant present, the search probes hdpi, mdpi and ldpi in that order and loads the ldpi texture |
| Android.UpwardStopsAtMissingBucket | app/src/main/java/org/noncom/jme_ttf/clarity/ClarityAndroid.java:386-396 | as written: at mdpi, with hdpi missing and xhdpi present, the search ends with not-found at hdpi |
| Android.CatchAll | app/src/main/java/org/noncom/jme_ttf/clarity/ClarityAndroid.java:289-296 | the same probes, each one catching not-found |
| Android.ResolveIntended | app/src/main/java/org/noncom/jme_ttf/clarity/ClarityAndroid.java:289-296 | the documented search, `ResolveWith` with the upward stage catching not-found, where `Resolve` passes false: at most seven probes; none exactly when the path ends in '/' or no bucket is set, the latter failing with a null pointer; a loaded texture is the last probed key's asset with the requested wrap |
| Android.IntendedNeverRaisesNotFound | app/src/main/java/org/noncom/jme_ttf/clarity/ClarityAndroid.java:289-296 | the documented search never ends in not-found |
| Android.CatchAllFirstHit | app/src/main/java/org/noncom/jme_ttf/clarity/ClarityAndroid.java:289-296 | with every probe catching, the first candidate the asset manager finds is loaded |
| Android.IntendedLoadsFirstPresent | app/src/main/java/org/noncom/jme_ttf/clarity/ClarityAndroid.java:289-305 | the documented search loads the first present candidate in candidate order, having probed exactly the candidates before it |
| Android.ScanExtensions | app/src/main/java/org/noncom/jme_ttf/clarity/ClarityAndroid.java:153-159 | the loop finds a token exactly when `GL_OES_standard_derivatives` is one of the extension tokens |
| Android.IsAndroidVendor | app/src/main/java/org/noncom/jme_ttf/clarity/ClarityAndroid.java:137-138 | set, and containing "android" once lower-cased (`AndroidVendorTest` states it) |
| Android.AndroidVendorTest | app/src/main/java/org/noncom/jme_ttf/clarity/ClarityAndroid.java:137-138 | an unset property is not Android; a set one is exactly when "android" occurs in its lower-cased text, and lower-casing the URL first changes nothing |
| Android.VendorText | app/src/main/java/org/noncom/jme_ttf/clarity/ClarityAndroid.java:171 | the vendor as the exception message shows it: the text itself, or "null" when unset |
| Android.MaxResolutionFor | app/src/main/java/org/noncom/jme_ttf/clarity/ClarityAndroid.java:162-165 | 1024 or 2048; 2048 exactly when the maximum texture size is at least 2048; never above a maximum of at least 1024 |
| Android.AfterScreenDensity | app/src/main/java/org/noncom/jme_ttf/clarity/ClarityAndroid.java:195-231 | a non-positive DPI changes nothing; a positive one sets only dpi and the two ratios, relative to the chosen bucket and to 160 |
| Android.BucketAfter | app/src/main/java/org/noncom/jme_ttf/clarity/ClarityAndroid.java:201-223 | a positive DPI always leaves a bucket set, the one its band picks; a non-positive one leaves the bucket as it was; so no bucket is set afterwards only if none was before and the DPI was not positive |
| Android.ClarityAndroid.Consistent | app/src/main/java/org/noncom/jme_ttf/clarity/ClarityAndroid.java:201-223 | the density invariant: once a positive DPI is stored, the bucket is that DPI's band and the absolute and relative scales are the ones it determines |
| Android.ClarityAndroid.constructor | core/src/main/java/org/noncom/jme_ttf/clarity/AClarity.java:48-59 | the shared configuration with its initial values, no density bucket, and the density invariant |
| Android.ClarityAndroid.InitPlatform | app/src/main/java/org/noncom/jme_ttf/clarity/ClarityAndroid.java:136-173 | for any other vendor, IllegalStateException with the vendor and nothing changed. On Android: mobile and Android flags set, the density set as `setScreenDensity` does, derivatives and atlas limit from the GL values, the start-up log failing exactly when no bucket is set, and the density invariant established |
| Android.ClarityAndroid.ProbeGraphics | app/src/main/java/org/noncom/jme_ttf/clarity/ClarityAndroid.java:152-165 | both derivative flags are true exactly when the token is listed, and the atlas limit comes from the maximum texture size; nothing else changes |
| Android.ClarityAndroid.GetScreenDensity | app/src/main/java/org/noncom/jme_ttf/clarity/ClarityAndroid.java:185-187 | the stored DPI; under the density invariant, a positive DPI's bucket is the current bucket |
| Android.ClarityAndroid.SetScreenDensity | app/src/main/java/org/noncom/jme_ttf/clarity/ClarityAndroid.java:195-231 | the new configuration and bucket are those of `AfterScreenDensity`; a positive DPI establishes the density invariant and a non-positive one keeps it |
| Android.ClarityAndroid.GetDensityScale | app/src/main/java/org/noncom/jme_ttf/clarity/ClarityAndroid.java:232-243 | the stored absolute scale; under the density invariant, 160 times it is the DPI |
| Android.ClarityAndroid.GetDensityModifier | app/src/main/java/org/noncom/jme_ttf/clarity/ClarityAndroid.java:245-262 | the stored relative scale; under the density invariant, the current bucket's base times it is the DPI |
| Android.ClarityAndroid.LoadTextureDP | app/src/main/java/org/noncom/jme_ttf/clarity/ClarityAndroid.java:323-411 | the result and probed keys are exactly those of the seven-probe search; with no bucket set, a null-pointer failure before any probe |
| Android.SearchDownward | app/src/main/java/org/noncom/jme_ttf/clarity/ClarityAndroid.java:338-365 | the do-while, with the buffer cut back after each probe, is the run of the downward stage and never ends in an exception; the model writes it as a `while gdpi.Some?` loop, which runs the same steps because its first test always holds (the loop starts at the current bucket, which is set) |
| Android.SearchUpward | app/src/main/java/org/noncom/jme_ttf/clarity/ClarityAndroid.java:386-408 | the while, with the buffer cut back after each probe, is the run of the upward stage, in which not-found propagates |
| Desktop.ClarityDesktop.constructor | core/src/main/java/org/noncom/jme_ttf/clarity/AClarity.java:48-59 | the shared configuration with its initial values |
| Desktop.ClarityDesktop.InitPlatform | desktop/src/main/java/org/noncom/jme_ttf/clarity/ClarityDesktop.java:74-89 | neither mobile nor Android, 72 DPI, both modifiers 1, derivatives exactly when GLSL 1.10 is available, and the two derivative flags equal; nothing else changes |
| Desktop.ClarityDesktop.LoadTexture | desktop/src/main/java/org/noncom/jme_ttf/clarity/ClarityDesktop.java:107-125 | exactly one probe, of the path as given with the caller's mip flag. A texture is loaded exactly when the asset manager returns one, with the requested wrap; null fails with the path in the message; not-found propagates. It is the one-probe search with not-found uncaught |
| Desktop.ClarityDesktop.LoadTextureDP | desktop/src/main/java/org/noncom/jme_ttf/clarity/ClarityDesktop.java:103-105 | the same single probe of the path as given, with no density directory inserted |
| TrueTypeText.ParseAlign | core/src/main/java/org/noncom/jme_ttf/clarity/ClarityTrueTypeText.kt:214-220 | a recognised name gives the alignment that has that name |
| TrueTypeText.ParseAlignName | core/src/main/java/org/noncom/jme_ttf/clarity/ClarityTrueTypeText.kt:214-220 | every alignment's name parses to it, and only that name does |
| TrueTypeText.ParseWrapMode | core/src/main/java/org/noncom/jme_ttf/clarity/ClarityTrueTypeText.kt:227-236 | a recognised name gives the wrap mode that has that name |
| TrueTypeText.ParseWrapModeName | core/src/main/java/org/noncom/jme_ttf/clarity/ClarityTrueTypeText.kt:227-236 | every wrap mode's name parses to it, and only that name does |
| TrueTypeText.KerningFor | core/src/main/java/org/noncom/jme_ttf/clarity/ClarityTrueTypeText.kt:181-185 | kerning in 0..2: 2 exactly below 17 points, 1 exactly from 17 to 22 |
| TrueTypeText.KerningMonotone | core/src/main/java/org/noncom/jme_ttf/clarity/ClarityTrueTypeText.kt:181-185 | a larger font never gets more kerning |
| TrueTypeText.Kerned | core/src/main/java/org/noncom/jme_ttf/clarity/ClarityTrueTypeText.kt:179-187 | on mobile the container is untouched; otherwise only its kerning changes, to the threshold value |
| TrueTypeText.ColorBuffer | core/src/main/java/org/noncom/jme_ttf/clarity/ClarityTrueTypeText.kt:283-292 | the colour array holds four entries per vertex |
| TrueTypeText.ColorBufferRepeats | core/src/main/java/org/noncom/jme_ttf/clarity/ClarityTrueTypeText.kt:283-292 | the array, entry i being component i % 4, is r, g, b, a repeated once per vertex |
| TrueTypeText.BmpMaterial | core/src/main/java/org/noncom/jme_ttf/clarity/ClarityTrueTypeText.kt:51-62 | the outlined definition, and an Outline colour, exactly for an outline > 0; the Color parameter always; no other parameters; alpha blending |
| TrueTypeText.MeshMaterial | core/src/main/java/org/noncom/jme_ttf/clarity/ClarityTrueTypeText.kt:67-72 | the mesh definition and colour, with `useAA` true exactly when derivatives are supported and the font is anti-aliased |
| TrueTypeText.MaterialCache.constructor | core/src/main/java/org/noncom/jme_ttf/clarity/ClarityTrueTypeText.kt:37 | the cache starts empty |
| TrueTypeText.MaterialCache.GetDefaultBMPMaterial | core/src/main/java/org/noncom/jme_ttf/clarity/ClarityTrueTypeText.kt:43-65 | on a hit, the cached material with the map unchanged; on a miss, a new material built as `BmpMaterial` says and stored under exactly that one key |
| TrueTypeText.MaterialCache.GetDefaultBMPMaterialFor | core/src/main/java/org/noncom/jme_ttf/clarity/ClarityTrueTypeText.kt:39-41 | the same rule for white text with a black outline |
| TrueTypeText.GetDefaultMeshMaterial | core/src/main/java/org/noncom/jme_ttf/clarity/ClarityTrueTypeText.kt:67-72 | a new, uncached material each call, as `MeshMaterial` describes |
| TrueTypeText.Updated | core/src/main/java/org/noncom/jme_ttf/clarity/ClarityTrueTypeText.kt:143-168 | one rebuild more; the container takes the node's text box; the font's scale is taken; kerning is corrected off mobile; text, maxLines and maxHeight are kept |
| TrueTypeText.Invalidated | core/src/main/java/org/noncom/jme_ttf/clarity/ClarityTrueTypeText.kt:193-197 | an update exactly when the node is initialised, no change before |
| TrueTypeText.TextSetEffect | core/src/main/java/org/noncom/jme_ttf/clarity/ClarityTrueTypeText.kt:199-205 | the same text leaves the node as it is; a new text is stored and rebuilds the geometry twice once initialised, once before |
| TrueTypeText.TextSet | core/src/main/java/org/noncom/jme_ttf/clarity/ClarityTrueTypeText.kt:199-205 | the text is the new one; line count, height, font, colour and initialised flag are kept |
| TrueTypeText.MaxHeightSet | core/src/main/java/org/noncom/jme_ttf/clarity/ClarityTrueTypeText.kt:105-109 | the height is the new value; one rebuild exactly when initialised; text, line counts and font are kept |
| TrueTypeText.MaxLinesSetEffect | core/src/main/java/org/noncom/jme_ttf/clarity/ClarityTrueTypeText.kt:93-103 | a value ≥ 0 is stored in the node and its container, and the height becomes the container's box height; a negative value is not stored, and the height becomes 0 |
| TrueTypeText.MaxLinesSet | core/src/main/java/org/noncom/jme_ttf/clarity/ClarityTrueTypeText.kt:93-103 | one rebuild exactly when initialised, in both branches; text and font are kept |
| TrueTypeText.FontSet | core/src/main/java/org/noncom/jme_ttf/clarity/ClarityTrueTypeText.kt:111-121 | the font and its scale are taken with no rebuild; off mobile the kerning comes from the new font's size, and nothing else in the container changes |
| TrueTypeText.ContainerSet | core/src/main/java/org/noncom/jme_ttf/clarity/ClarityTrueTypeText.kt:209-246 | text, alignments and wrap mode are those written; one rebuild exactly when initialised; the kerning is the one written, except on an initialised desktop node, which gets the font's kerning |
| TrueTypeText.SetKerningOverridden | core/src/main/java/org/noncom/jme_ttf/clarity/ClarityTrueTypeText.kt:238-241 | off mobile, on an initialised node, an explicit kerning does not survive the invalidate it triggers; otherwise it is kept |
| TrueTypeText.ContainerSetSame | core/src/main/java/org/noncom/jme_ttf/clarity/ClarityTrueTypeText.kt:209-246 | reapplying the current container option is exactly an invalidate |
| TrueTypeText.ClarityTrueTypeText.constructor | core/src/main/java/org/noncom/jme_ttf/clarity/ClarityTrueTypeText.kt:134-141 | the field initialisers, one update, then the node marked initialised |
| TrueTypeText.ClarityTrueTypeText.Update | core/src/main/java/org/noncom/jme_ttf/clarity/ClarityTrueTypeText.kt:143-168 | the new state is `Updated` of the old |
| TrueTypeText.ClarityTrueTypeText.FixKerning | core/src/main/java/org/noncom/jme_ttf/clarity/ClarityTrueTypeText.kt:179-187 | only the container changes, as `Kerned` says |
| TrueTypeText.ClarityTrueTypeText.GetKerning | core/src/main/java/org/noncom/jme_ttf/clarity/ClarityTrueTypeText.kt:189-191 | returns the container's kerning; `SetKerning` states its value after a set |
| TrueTypeText.ClarityTrueTypeText.Invalidate | core/src/main/java/org/noncom/jme_ttf/clarity/ClarityTrueTypeText.kt:193-197 | the new state is `Invalidated` of the old |
| TrueTypeText.ClarityTrueTypeText.SetColor | core/src/main/java/org/noncom/jme_ttf/clarity/ClarityTrueTypeText.kt:170-173 | only the stored vertex colour changes |
| TrueTypeText.ClarityTrueTypeText.SetText | core/src/main/java/org/noncom/jme_ttf/clarity/ClarityTrueTypeText.kt:199-205 | the new state is the `setText` transition, whose effect `TextSetEffect` states; `getText` then returns the text set |
| TrueTypeText.ClarityTrueTypeText.GetText | core/src/main/java/org/noncom/jme_ttf/clarity/ClarityTrueTypeText.kt:207 | returns the container's text; after `SetText` it is the text set |
| TrueTypeText.ClarityTrueTypeText.SetMaxHeight | core/src/main/java/org/noncom/jme_ttf/clarity/ClarityTrueTypeText.kt:105-109 | stores the height, then invalidates |
| TrueTypeText.ClarityTrueTypeText.SetMaxLines | core/src/main/java/org/noncom/jme_ttf/clarity/ClarityTrueTypeText.kt:93-103 | the new state is the `maxLines` transition, whose effect `MaxLinesSetEffect` states |
| TrueTypeText.ClarityTrueTypeText.SetFont | core/src/main/java/org/noncom/jme_ttf/clarity/ClarityTrueTypeText.kt:111-121 | stores the font, takes its scale, and corrects the kerning, with no rebuild |
| TrueTypeText.ClarityTrueTypeText.SetTextBox | core/src/main/java/org/noncom/jme_ttf/clarity/ClarityTrueTypeText.kt:125-128 | stores the box, then updates unconditionally |
| TrueTypeText.ClarityTrueTypeText.SetHAlignment | core/src/main/java/org/noncom/jme_ttf/clarity/ClarityTrueTypeText.kt:209-212 | writes the alignment, then invalidates |
| TrueTypeText.ClarityTrueTypeText.SetHAlignmentNamed | core/src/main/java/org/noncom/jme_ttf/clarity/ClarityTrueTypeText.kt:214-220 | a recognised name sets its alignment; any other name changes nothing |
| TrueTypeText.ClarityTrueTypeText.SetVAlignment | core/src/main/java/org/noncom/jme_ttf/clarity/ClarityTrueTypeText.kt:222-225 | writes the vertical alignment, then invalidates |
| TrueTypeText.ClarityTrueTypeText.SetWrapMode | core/src/main/java/org/noncom/jme_ttf/clarity/ClarityTrueTypeText.kt:243-246 | writes the wrap mode, then invalidates |
| TrueTypeText.ClarityTrueTypeText.SetWrapModeNamed | core/src/main/java/org/noncom/jme_ttf/clarity/ClarityTrueTypeText.kt:227-236 | a recognised name sets its wrap mode; any other name changes nothing |
| TrueTypeText.ClarityTrueTypeText.SetKerning | core/src/main/java/org/noncom/jme_ttf/clarity/ClarityTrueTypeText.kt:238-241 | writes the kerning, then invalidates: `getKerning` then returns the written value, except on an initialised desktop node, where the update puts back the font's kerning |

## Left out

- Platform probing is passed in as parameters of `InitPlatform` rather than read:
  - the `java.vendor.url` property;
  - Android's `DisplayMetrics`;
  - the GL extension string and maximum texture size;
  - the renderer's GLSL 1.10 capability.
- `println` logging is left out: Android start-up, desktop start-up with
  `os.name`, and "LOADING TTF". The one effect of the Android start-up
  line, a `NullPointerException` when no bucket is set, is modelled as
  `StartupNullPointer`.
- The static singleton `instance` and the asset and render-manager getters
  are left out. The configuration is an explicit object.
- In the source, the `AClarity` constructor registers the TrueType loader
  and reads the preload text asset, then calls `initPlatform`. In the model
  the preload text is a constructor parameter, and `InitPlatform` is a
  separate call made after construction.
- The `dp`, `dpRel`, `dpInt` and `dpLocal` float helpers and the vector
  scaling in AClarity.java are not modelled.
- Floats are modelled as exact reals: `dpiMod`, `relDpiMod`, a font's scale
  and the node's colours and sizes.
- Clarity.RemapPointSize: floor(100·p / 73) and floor(100·p / 84) stand for
  Java's float division by 0.73f and 0.84f. For 0 ≤ p ≤ 52 the exact
  quotient is either an integer or at least 1/84 away from one, which is far
  more than the float error. The agreement is argued, not proved, and
  negative sizes are not argued at all.
- Clarity.RemapPointSize: the scale is kept as the exact quotient
  p / actualSize. At p = 0 this is `Ratio(0, 0)`, which Java evaluates to
  NaN.
- Asset-manager failures other than `AssetNotFoundException` are not
  modelled. The catches at ClarityAndroid.java:348-352 and 371-375 name only
  that exception, so in the source any other failure of `loadTexture`
  escapes from every stage of the search. `LoadOutcome` has no case for
  such a failure.
- The asset manager is a total function from texture key to outcome. In the
  model a texture is a value, but `setWrap` in the source changes an engine
  object that the asset manager may share with other callers. That aliasing,
  and any name normalisation inside `TextureKey`, are not modelled.
- Loading fonts and materials returns the request it would make (key, scale
  and lock), not an engine object.
- Strings.ToLower: case mapping covers ASCII letters only. Java's
  `toLowerCase` also maps other scripts and depends on the locale.
- Strings.Split: trailing empty fields are kept, which Java drops. The only
  use is a membership test for a non-empty token, and that test gives the
  same answer either way.
- The text node's scene-graph and font-library work is not modelled. This
  covers:
  - `update()` builds the `TrueTypeContainer`, attaches it, records the
    atlas size and sets the atlas texture; the model counts each such
    rebuild.
  - `setColor` repaints the geometries; the model only stores the colour.
  - The mesh calls of `setVertexColor`; its colour array is modelled.
  - The debug geometry.
  - `getGeometries` and the text and box size getters.
- `installAtlasListener`, its callback and the `listener` field are left
  out. `listener` is never assigned, so the font setter's listener
  hand-over never runs.
- The source's `font is TrueTypeBMP` test is left out. It cannot fail for
  the declared type, so only `isMobile` decides whether kerning is
  corrected.
- TrueTypeText.MaxLinesSetEffect: the `StringContainer` is a value the node
  holds. Any change the font library makes to the container's text box when
  `setMaxLines` is called is not modelled, so the new height is the box
  height from before the call.
- TrueTypeText.CacheKey: `ColorRGBA.toString` is a parameter, and the font's
  `toString` is the font's `text` field.
- `getDefaultMeshMaterial` receives the font's anti-aliasing flag rather
  than the font.
- The secondary constructors of the text node (ClarityTrueTypeText.kt:24-26)
  are left out. They only build a `StringContainer` or fetch the default
  material before calling the primary constructor.
- MainActivity.java and Game.java are not part of this model. They are
  application bootstrap only.

## Findings

| source | as written | input that shows it | evidently intended | confidence | as-written member | corrected member |
|---|---|---|---|---|---|---|
| app/src/main/java/org/noncom/jme_ttf/clarity/ClarityAndroid.java:386-408 | The upward stage calls `assets.loadTexture(key)` at line 395 without the `AssetNotFoundException` catch the other two stages have, so the first missing bucket above the current one ends the search with that exception. | Current bucket mdpi, with only `prefix/xhdpi/file` present and the asset manager throwing for missing assets: the search probes mdpi, ldpi, the bare path, then hdpi, and throws there without reaching xhdpi. | Treat not-found as a miss in the upward stage as well, as the method's documentation says (289-296), so that the first present candidate is loaded. | not executed | Android.UpwardStopsAtMissingBucket | Android.IntendedLoadsFirstPresent |
