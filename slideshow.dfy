/** The slideshow plans of `create_long_video` (app/video/video_creator.py) and
    `create_short_video` (app/short/short_creator.py): the image list with its placeholder,
    the per-image duration, the number of slides, the cycle over the images, the clip loop with
    its per-URL cache, and the subtitle segments. Loading an image (a local file or a download,
    decoded and resized) is an oracle from the loop index and the URL to an image or a
    failure; the image type is a parameter. */
module Slideshow {
  import opened Wrappers
  import opened PyStr
  import opened Seqs
  import opened SubtitleSplit

  const LongPlaceholder: string := "https://via.placeholder.com/1920x1080/111111/ffffff?text=No+Images"
  const ShortPlaceholder: string := "https://via.placeholder.com/1080x1920/111111/ffffff?text=No+Images"

  /** `math.ceil(a / b)` for a positive `b`, on integers. */
  function CeilDiv(a: int, b: int): (q: int)
    requires b > 0
    ensures (q - 1) * b < a <= q * b
  {
    -((-a) / b)
  }

  /** `max(1, ceil(total / each))`: the fewest slides of `each` seconds that fill `total`
      seconds, and at least one. */
  function SlideCount(total: int, each: int): (n: int)
    requires each > 0
    ensures n >= 1
    ensures n * each >= total
    ensures n == 1 || (n - 1) * each < total
  {
    var q := CeilDiv(total, each);
    if q > 1 then q else 1
  }

  /** A non-positive configured duration falls back to `fallback`. */
  function PositiveOr(configured: int, fallback: int): (d: int)
    requires fallback > 0
    ensures d > 0
    ensures configured > 0 ==> d == configured
    ensures configured <= 0 ==> d == fallback
  {
    if configured <= 0 then fallback else configured
  }

  /** `[urls[i % len(urls)] for i in range(count)]`. */
  function Cycle(urls: seq<string>, count: nat): (c: seq<string>)
    requires urls != []
    ensures |c| == count
  {
    seq(count, i requires 0 <= i < count => urls[i % |urls|])
  }

  lemma {:induction false} MulAtLeast(k: int, n: int)
    requires k >= 1 && n > 0
    ensures k * n >= n
    decreases k
  {
    if k > 1 {
      MulAtLeast(k - 1, n);
      assert k * n == (k - 1) * n + n;
    }
  }

  /** The remainder is the one `r` with `a == q * n + r` and `0 <= r < n`. */
  lemma ModUnique(a: int, n: int, q: int, r: int)
    requires n > 0 && 0 <= r < n && a == q * n + r
    ensures a % n == r
  {
    var q', r' := a / n, a % n;
    assert a == q' * n + r';
    var d := q - q';
    assert d * n == r' - r by {
      assert q * n - q' * n == (q - q') * n;
    }
    if d >= 1 {
      MulAtLeast(d, n);
      assert false;
    } else if d <= -1 {
      MulAtLeast(-d, n);
      assert false;
    }
  }

  lemma ModShift(i: nat, n: nat)
    requires n > 0
    ensures (i + n) % n == i % n
  {
    var q, r := i / n, i % n;
    assert i == q * n + r;
    assert i + n == (q + 1) * n + r;
    ModUnique(i + n, n, q + 1, r);
  }

  /** A slide `len(urls)` further along shows the same image. */
  lemma CyclePeriodic(urls: seq<string>, count: nat, i: nat)
    requires urls != [] && i + |urls| < count
    ensures Cycle(urls, count)[i + |urls|] == Cycle(urls, count)[i]
  {
    ModShift(i, |urls|);
  }

  /** The first `len(urls)` slides are the list itself. */
  lemma CyclePrefix(urls: seq<string>, count: nat)
    requires urls != [] && count >= |urls|
    ensures Cycle(urls, count)[..|urls|] == urls
  {
    var c := Cycle(urls, count);
    forall i | 0 <= i < |urls|
      ensures c[i] == urls[i]
    {
      assert i % |urls| == i;
    }
  }

  /** The cycle repeats the list: every slide shows an image of the list, a slide `len(urls)`
      further along shows the same image, and the first `len(urls)` slides are the list
      itself. */
  lemma CycleShape(urls: seq<string>, count: nat)
    requires urls != []
    ensures forall i :: 0 <= i < count ==> Cycle(urls, count)[i] in urls
    ensures forall i :: 0 <= i < count && i + |urls| < count ==>
      Cycle(urls, count)[i + |urls|] == Cycle(urls, count)[i]
    ensures count >= |urls| ==> Cycle(urls, count)[..|urls|] == urls
  {
    forall i | 0 <= i < count && i + |urls| < count
      ensures Cycle(urls, count)[i + |urls|] == Cycle(urls, count)[i]
    {
      CyclePeriodic(urls, count, i);
    }
    if count >= |urls| {
      CyclePrefix(urls, count);
    }
  }

  // ---------------------------------------------------------------------------------------
  // The clip loop of `create_long_video`

  /** One call of the loader: the URL and whether it gave an image. */
  datatype Load = Load(url: string, ok: bool)

  /** The loop's state: the cache, the clips, the loads made, and the failures counted. */
  datatype Loaded<F> = Loaded(cache: map<string, F>, clips: seq<F>, loads: seq<Load>, fail: nat)

  /** The loop over the first `n` slides: a cached URL gives its image again; any other URL is
      loaded, and on success cached and used, and on failure counted and skipped. */
  function LoadPrefix<F>(cycle: seq<string>, n: nat, load: (nat, string) -> Option<F>): Loaded<F>
    requires n <= |cycle|
  {
    if n == 0 then Loaded(map[], [], [], 0)
    else
      var url := cycle[n - 1];
      Step(LoadPrefix(cycle, n - 1, load), url, load(n - 1, url))
  }

  /** One slide: a cached URL gives its image again; any other URL is loaded (`img` is what
      the loader gives for it, and is not looked at for a cached URL). */
  function Step<F>(s: Loaded<F>, url: string, img: Option<F>): Loaded<F> {
    if url in s.cache then s.(clips := s.clips + [s.cache[url]])
    else AfterLoad(s, url, img)
  }

  /** A URL not in the cache is loaded: on success cached and used, on failure counted. */
  function AfterLoad<F>(s: Loaded<F>, url: string, img: Option<F>): Loaded<F> {
    match img
    case Some(i) => Loaded(s.cache[url := i], s.clips + [i], s.loads + [Load(url, true)], s.fail)
    case None => s.(loads := s.loads + [Load(url, false)], fail := s.fail + 1)
  }

  /** A URL is loaded again only after every earlier load of it failed: each URL is loaded
      successfully at most once, and the cache holds exactly the URLs loaded successfully. */
  lemma {:induction false} LoadedOnce<F>(cycle: seq<string>, n: nat, load: (nat, string) -> Option<F>)
    requires n <= |cycle|
    ensures var s := LoadPrefix(cycle, n, load);
      && (forall i, j :: 0 <= i < j < |s.loads| && s.loads[i].url == s.loads[j].url ==> !s.loads[i].ok)
      && (forall u :: u in s.cache <==> Load(u, true) in s.loads)
  {
    if n > 0 {
      LoadedOnce(cycle, n - 1, load);
    }
  }

  predicate Failed(l: Load) {
    !l.ok
  }

  predicate Succeeded(l: Load) {
    l.ok
  }

  /** After `k` slides: every slide gave a clip or a failure, at most one load each, and
      every failure is a failed load. */
  predicate Counted<F>(s: Loaded<F>, k: nat) {
    && |s.clips| + s.fail == k
    && |s.loads| <= k
    && s.fail == |Filter(s.loads, Failed)|
  }

  /** Every slide gives a clip or a failure, and every failure is a failed load. */
  lemma {:induction false} LoadedCounts<F>(cycle: seq<string>, n: nat, load: (nat, string) -> Option<F>)
    requires n <= |cycle|
    ensures Counted(LoadPrefix(cycle, n, load), n)
  {
    if n > 0 {
      LoadedCounts(cycle, n - 1, load);
      var url := cycle[n - 1];
      StepCounts(LoadPrefix(cycle, n - 1, load), url, load(n - 1, url), n - 1);
    } else {
      var e: Loaded<F> := Loaded(map[], [], [], 0);
      assert Filter(e.loads, Failed) == [];
      assert LoadPrefix(cycle, n, load) == e;
    }
  }

  /** One slide adds a clip or a failure, at most one load, and a failure only with a failed load. */
  lemma StepCounts<F>(s: Loaded<F>, url: string, img: Option<F>, k: nat)
    requires Counted(s, k)
    ensures Counted(Step(s, url, img), k + 1)
  {
    if url !in s.cache {
      var l := Load(url, img.Some?);
      assert Step(s, url, img).loads == s.loads + [l];
      assert (s.loads + [l])[..|s.loads|] == s.loads;
    }
  }

  /** The cache only holds URLs of the slides seen. */
  lemma {:induction false} LoadedCacheKeys<F>(cycle: seq<string>, n: nat, load: (nat, string) -> Option<F>)
    requires n <= |cycle|
    ensures LoadPrefix(cycle, n, load).cache.Keys <= (set i | 0 <= i < n :: cycle[i])
  {
    if n > 0 {
      LoadedCacheKeys(cycle, n - 1, load);
      assert (set i | 0 <= i < n :: cycle[i]) == (set i | 0 <= i < n - 1 :: cycle[i]) + {cycle[n - 1]};
    }
  }

  /** The cache holds one image per successful load. */
  predicate OnePerSuccess<F>(s: Loaded<F>) {
    |s.cache.Keys| == |Filter(s.loads, Succeeded)|
  }

  /** The cache holds one image per successful load (`unique_images`). */
  lemma {:induction false} LoadedCacheSize<F>(cycle: seq<string>, n: nat, load: (nat, string) -> Option<F>)
    requires n <= |cycle|
    ensures OnePerSuccess(LoadPrefix(cycle, n, load))
  {
    if n > 0 {
      LoadedCacheSize(cycle, n - 1, load);
      var url := cycle[n - 1];
      StepSize(LoadPrefix(cycle, n - 1, load), url, load(n - 1, url));
    } else {
      var e: Loaded<F> := Loaded(map[], [], [], 0);
      assert |e.cache.Keys| == 0;
      assert Filter(e.loads, Succeeded) == [];
      assert LoadPrefix(cycle, n, load) == e;
    }
  }

  /** One slide keeps the cache one entry per successful load. */
  lemma StepSize<F>(s: Loaded<F>, url: string, img: Option<F>)
    requires OnePerSuccess(s)
    ensures OnePerSuccess(Step(s, url, img))
  {
    if url !in s.cache {
      AfterLoadSize(s, url, img);
    }
  }

  /** A load keeps the cache one entry per successful load. */
  lemma AfterLoadSize<F>(s: Loaded<F>, url: string, img: Option<F>)
    requires url !in s.cache
    requires OnePerSuccess(s)
    ensures OnePerSuccess(AfterLoad(s, url, img))
  {
    var l := Load(url, img.Some?);
    var s' := AfterLoad(s, url, img);
    assert s'.loads == s.loads + [l];
    assert (s.loads + [l])[..|s.loads|] == s.loads;
    if img.Some? {
      assert Filter(s'.loads, Succeeded) == Filter(s.loads, Succeeded) + [l];
      assert s'.cache.Keys == s.cache.Keys + {url};
    } else {
      assert Filter(s'.loads, Succeeded) == Filter(s.loads, Succeeded);
    }
  }

  /** When no load fails, every slide has a clip, the image cached for its URL. */
  lemma {:induction false} LoadedAll<F>(cycle: seq<string>, n: nat, load: (nat, string) -> Option<F>)
    requires n <= |cycle|
    requires forall i :: 0 <= i < n ==> load(i, cycle[i]).Some?
    ensures var s := LoadPrefix(cycle, n, load);
      && s.fail == 0
      && |s.clips| == n
      && (forall i :: 0 <= i < n ==> cycle[i] in s.cache && s.clips[i] == s.cache[cycle[i]])
  {
    if n > 0 {
      LoadedAll(cycle, n - 1, load);
      var s := LoadPrefix(cycle, n - 1, load);
      var url := cycle[n - 1];
      var s' := LoadPrefix(cycle, n, load);
      assert s'.clips[..n - 1] == s.clips;
      assert forall u :: u in s.cache ==> u in s'.cache && s'.cache[u] == s.cache[u];
    }
  }

  /** When no load fails, the cache ends with every URL of the slides, each loaded once. */
  lemma LoadedAllKeys<F>(cycle: seq<string>, n: nat, load: (nat, string) -> Option<F>)
    requires n <= |cycle|
    requires forall i :: 0 <= i < n ==> load(i, cycle[i]).Some?
    ensures var s := LoadPrefix(cycle, n, load);
      && s.cache.Keys == (set i | 0 <= i < n :: cycle[i])
      && |s.loads| == |s.cache.Keys|
  {
    var s := LoadPrefix(cycle, n, load);
    LoadedAll(cycle, n, load);
    LoadedCacheKeys(cycle, n, load);
    LoadedCacheSize(cycle, n, load);
    LoadedCounts(cycle, n, load);
    assert Filter(s.loads, Failed) == [];
    assert forall l :: l in s.loads ==> Succeeded(l);
    FilterKeepsAll(s.loads, Succeeded);
  }

  /** The clip loop as written, with its cache dictionary. */
  method LoadClips<F>(cycle: seq<string>, load: (nat, string) -> Option<F>)
    returns (cache: map<string, F>, clips: seq<F>, loads: seq<Load>, fail: nat)
    ensures Loaded(cache, clips, loads, fail) == LoadPrefix(cycle, |cycle|, load)
  {
    cache, clips, loads, fail := map[], [], [], 0;
    var idx := 0;
    while idx < |cycle|
      invariant 0 <= idx <= |cycle|
      invariant Loaded(cache, clips, loads, fail) == LoadPrefix(cycle, idx, load)
    {
      var url := cycle[idx];
      if url !in cache {
        var img := load(idx, url);
        loads := loads + [Load(url, img.Some?)];
        if img.None? {
          fail := fail + 1;
          idx := idx + 1;
          continue;
        }
        cache := cache[url := img.value];
      }
      clips := clips + [cache[url]];
      idx := idx + 1;
    }
  }

  // ---------------------------------------------------------------------------------------
  // `create_long_video`

  /** The subtitle segments: `split_text(script, max_chars=48)`, or one empty segment. */
  function LongSegments(script: string): seq<string> {
    var segs := SplitTextSpec(script, 48);
    if segs == [] then [""] else segs
  }

  /** There is always a segment; it is the one empty segment exactly when the script is blank,
      and otherwise every segment is non-empty and at most 48 characters long. */
  lemma LongSegmentsShape(script: string)
    ensures LongSegments(script) != []
    ensures IsBlank(script) ==> LongSegments(script) == [""]
    ensures !IsBlank(script) ==> forall k :: 0 <= k < |LongSegments(script)| ==>
      LongSegments(script)[k] != [] && |LongSegments(script)[k]| <= 48
  {
    SegmentsBounded(script, 48);
    if !IsBlank(script) {
      SegmentsNonEmpty(script, 48);
    }
  }

  /** What `create_long_video` renders: the image duration, the slides' URLs, the clips, and
      the subtitle segments. */
  datatype LongPlan<F> = LongPlan(imageDuration: int, cycle: seq<string>, clips: seq<F>, segments: seq<string>)

  /** The image list, or the placeholder when it is empty. */
  function LongSources(urls: seq<string>): (r: seq<string>)
    ensures r != []
    ensures urls != [] ==> r == urls
    ensures urls == [] ==> r == [LongPlaceholder]
  {
    if urls == [] then [LongPlaceholder] else urls
  }

  /** `create_long_video` up to the rendering: `RuntimeError` when no clip could be made. */
  function LongVideo<F>(script: string, urls: seq<string>, targetDuration: int, imageDuration: int,
                        load: (nat, string) -> Option<F>): Result<LongPlan<F>, string>
  {
    var d := PositiveOr(imageDuration, 3);
    var cycle := Cycle(LongSources(urls), SlideCount(targetDuration, d));
    var s := LoadPrefix(cycle, |cycle|, load);
    if s.clips == [] then Err("No valid images to build video (all downloads/decodes failed)")
    else Ok(LongPlan(d, cycle, s.clips, LongSegments(script)))
  }

  /** The plan fills the target with slides of the image duration over the (placeholder-filled)
      list, fails only when every load failed, and has at least one subtitle segment. */
  lemma LongVideoShape<F>(script: string, urls: seq<string>, targetDuration: int, imageDuration: int,
                          load: (nat, string) -> Option<F>)
    ensures var r := LongVideo(script, urls, targetDuration, imageDuration, load);
      var d := PositiveOr(imageDuration, 3);
      var n := SlideCount(targetDuration, d);
      var cycle := Cycle(LongSources(urls), n);
      && (r.Err? <==> LoadPrefix(cycle, n, load).clips == [])
      && (r.Err? ==> LoadPrefix(cycle, n, load).fail == n)
      && (r.Ok? ==>
            && r.value.imageDuration == d
            && |r.value.cycle| == n
            && (forall i :: 0 <= i < n ==> r.value.cycle[i] == LongSources(urls)[i % |LongSources(urls)|])
            && 1 <= |r.value.clips| <= n
            && r.value.segments == LongSegments(script) != [])
  {
    var d := PositiveOr(imageDuration, 3);
    var n := SlideCount(targetDuration, d);
    var cycle := Cycle(LongSources(urls), n);
    var s := LoadPrefix(cycle, n, load);
    LoadedCounts(cycle, n, load);
    var r := LongVideo(script, urls, targetDuration, imageDuration, load);
    if s.clips == [] {
      assert r.Err?;
    } else {
      assert r == Ok(LongPlan(d, cycle, s.clips, LongSegments(script)));
    }
  }

  /** `create_long_video` as written, up to the rendering. */
  method CreateLongVideo<F>(script: string, urls: seq<string>, targetDuration: int, configuredDuration: int,
                            load: (nat, string) -> Option<F>)
    returns (r: Result<LongPlan<F>, string>)
    ensures r == LongVideo(script, urls, targetDuration, configuredDuration, load)
  {
    var imageDuration := configuredDuration;
    if imageDuration <= 0 {
      imageDuration := 3;
    }
    var imageUrls := urls;
    if imageUrls == [] {
      imageUrls := [LongPlaceholder];
    }
    var requiredClips := SlideCount(targetDuration, imageDuration);
    var urlCycle := Cycle(imageUrls, requiredClips);
    var cache, clips, loads, fail := LoadClips(urlCycle, load);
    if clips == [] {
      return Err("No valid images to build video (all downloads/decodes failed)");
    }
    var segments := SplitText(script, 48);
    if segments == [] {
      segments := [""];
    }
    return Ok(LongPlan(imageDuration, urlCycle, clips, segments));
  }

  // ---------------------------------------------------------------------------------------
  // `create_short_video`

  /** `image_url`: one URL or a list of them. */
  datatype ImageArg = One(url: string) | Many(urls: seq<string>)

  /** The sources: the list (or the one URL), empty ones dropped, or the placeholder when none
      is left. */
  function ShortSources(arg: ImageArg): (r: seq<string>)
    ensures r != []
  {
    var sources := if arg.Many? then arg.urls else [arg.url];
    var kept := Filter(sources, (s: string) => s != "");
    if kept == [] then [ShortPlaceholder] else kept
  }

  /** The sources are the non-empty given URLs, in order, or only the placeholder when there
      is none. */
  lemma ShortSourcesShape(arg: ImageArg)
    ensures var given := if arg.Many? then arg.urls else [arg.url];
      && (forall u :: u in ShortSources(arg) && u != ShortPlaceholder ==> u in given && u != "")
      && (forall u :: u in given && u != "" ==> u in ShortSources(arg))
      && ((forall u :: u in given ==> u == "") ==> ShortSources(arg) == [ShortPlaceholder])
      && ((forall u :: u in given ==> u != "") ==> ShortSources(arg) == (if given == [] then [ShortPlaceholder] else given))
  {
    var given := if arg.Many? then arg.urls else [arg.url];
    var kept := Filter(given, (s: string) => s != "");
    if forall u :: u in given ==> u != "" {
      FilterKeepsAll(given, (s: string) => s != "");
    }
    if kept != [] {
      assert kept[0] in kept;
      assert ShortPlaceholder != "";
    }
  }

  /** The short clip loop over the first `n` slides: each slide is loaded, and kept when that
      succeeds. */
  function ShortClips<F>(cycle: seq<string>, n: nat, load: (nat, string) -> Option<F>): (clips: seq<F>)
    requires n <= |cycle|
    ensures |clips| <= n
  {
    if n == 0 then []
    else ShortClips(cycle, n - 1, load) + (match load(n - 1, cycle[n - 1]) case Some(img) => [img] case None => [])
  }

  /** The clips are exactly the images of the slides that loaded, in slide order; with no
      failure there is one per slide. */
  lemma {:induction false} ShortClipsLoaded<F>(cycle: seq<string>, n: nat, load: (nat, string) -> Option<F>)
    requires n <= |cycle|
    ensures (forall i :: 0 <= i < n ==> load(i, cycle[i]).Some?) ==>
      |ShortClips(cycle, n, load)| == n
      && forall i :: 0 <= i < n ==> ShortClips(cycle, n, load)[i] == load(i, cycle[i]).value
    ensures (forall i :: 0 <= i < n ==> load(i, cycle[i]).None?) <==> ShortClips(cycle, n, load) == []
  {
    if n > 0 {
      ShortClipsLoaded(cycle, n - 1, load);
    }
  }

  /** What `create_short_video` renders: the slide duration, the slides' URLs and the clips. */
  datatype ShortPlan<F> = ShortPlan(slide: int, cycle: seq<string>, clips: seq<F>)

  /** `create_short_video` up to the rendering: `RuntimeError` when no clip could be made. */
  function ShortVideo<F>(arg: ImageArg, duration: int, configuredSlide: int, load: (nat, string) -> Option<F>)
    : Result<ShortPlan<F>, string>
  {
    var slide := PositiveOr(configuredSlide, 2);
    var cycle := Cycle(ShortSources(arg), SlideCount(duration, slide));
    var clips := ShortClips(cycle, |cycle|, load);
    if clips == [] then Err("No valid images for short video") else Ok(ShortPlan(slide, cycle, clips))
  }

  /** The short plan fills the duration with slides over the sources, and fails exactly when
      every slide failed to load. */
  lemma ShortVideoShape<F>(arg: ImageArg, duration: int, configuredSlide: int, load: (nat, string) -> Option<F>)
    ensures var r := ShortVideo(arg, duration, configuredSlide, load);
      var slide := PositiveOr(configuredSlide, 2);
      var n := SlideCount(duration, slide);
      var cycle := Cycle(ShortSources(arg), n);
      && (r.Err? <==> forall i :: 0 <= i < n ==> load(i, cycle[i]).None?)
      && (r.Ok? ==>
            && r.value.slide == slide
            && r.value.cycle == cycle
            && 1 <= |r.value.clips| <= n)
  {
    var slide := PositiveOr(configuredSlide, 2);
    var n := SlideCount(duration, slide);
    var cycle := Cycle(ShortSources(arg), n);
    ShortClipsLoaded(cycle, n, load);
  }

  /** The short clip loop as written. */
  method LoadShortClips<F>(cycle: seq<string>, load: (nat, string) -> Option<F>) returns (clips: seq<F>)
    ensures clips == ShortClips(cycle, |cycle|, load)
  {
    clips := [];
    var idx := 0;
    while idx < |cycle|
      invariant 0 <= idx <= |cycle|
      invariant clips == ShortClips(cycle, idx, load)
    {
      var img := load(idx, cycle[idx]);
      if img.Some? {
        clips := clips + [img.value];
      }
      idx := idx + 1;
    }
  }

  /** `create_short_video` as written, up to the rendering. */
  method CreateShortVideo<F>(arg: ImageArg, duration: int, configuredSlide: int, load: (nat, string) -> Option<F>)
    returns (r: Result<ShortPlan<F>, string>)
    ensures r == ShortVideo(arg, duration, configuredSlide, load)
  {
    var sources := if arg.Many? then arg.urls else [arg.url];
    sources := Filter(sources, (s: string) => s != "");
    if sources == [] {
      sources := [ShortPlaceholder];
    }
    var slide := configuredSlide;
    if slide <= 0 {
      slide := 2;
    }
    var n := SlideCount(duration, slide);
    var cycle := Cycle(sources, n);
    var clips := LoadShortClips(cycle, load);
    if clips == [] {
      return Err("No valid images for short video");
    }
    return Ok(ShortPlan(slide, cycle, clips));
  }
}
