/** The image fallback chain, in both of its variants (app/images/aggregator.py and
    app/search/aggregator.py): providers are registered from a priority list, tried in
    order, and the first batch of URLs that yields anything is returned, saved to the run's
    image folder when there is one; otherwise fixed placeholders are returned. What each
    provider answers and what each download does are parameters. */
module ImageChain {
  import opened Wrappers
  import opened PyStr
  import opened Seqs

  /** The image providers the registries know. */
  datatype ImageSource = PexelsSource | UnsplashSource | PixabaySource

  /** The provider's class name, which names its saved files. */
  function ClassName(k: ImageSource): string {
    match k
    case PexelsSource => "PexelsProvider"
    case UnsplashSource => "UnsplashProvider"
    case PixabaySource => "PixabayProvider"
  }

  /** `IMAGE_PROVIDER_PRIORITY` in config/settings.py. */
  const SettingsPriority: seq<string> := ["unsplash", "pexels", "pixabay"]

  function SourceOf(key: string): (k: Option<ImageSource>)
    ensures k == Some(PexelsSource) <==> key == "pexels"
    ensures k == Some(UnsplashSource) <==> key == "unsplash"
    ensures k == Some(PixabaySource) <==> key == "pixabay"
  {
    if key == "pexels" then Some(PexelsSource)
    else if key == "unsplash" then Some(UnsplashSource)
    else if key == "pixabay" then Some(PixabaySource)
    else None
  }

  /** The sources the known keys name, in priority order, repeats kept. */
  function KnownSources(priority: seq<string>): (ks: seq<ImageSource>)
    ensures |ks| <= |priority|
  {
    if priority == [] then []
    else
      var k := SourceOf(priority[|priority| - 1]);
      KnownSources(priority[..|priority| - 1]) + (if k.Some? then [k.value] else [])
  }

  /** The registry of app/images/aggregator.py: the known sources, or Pexels alone. */
  function Registry(priority: seq<string>): (ks: seq<ImageSource>)
    ensures ks != []
  {
    var known := KnownSources(priority);
    if known == [] then [PexelsSource] else known
  }

  /** The registration loop of app/images/aggregator.py. */
  method BuildRegistry(priority: seq<string>) returns (providers: seq<ImageSource>)
    ensures providers == Registry(priority)
  {
    providers := [];
    for i := 0 to |priority|
      invariant providers == KnownSources(priority[..i])
    {
      assert priority[..i + 1][..i] == priority[..i];
      var name := priority[i];
      if name == "pexels" {
        providers := providers + [PexelsSource];
      } else if name == "unsplash" {
        providers := providers + [UnsplashSource];
      } else if name == "pixabay" {
        providers := providers + [PixabaySource];
      }
    }
    assert priority[..|priority|] == priority;
    if providers == [] {
      providers := [PexelsSource];
    }
  }

  /** The three API keys of the configuration. */
  datatype ApiKeys = ApiKeys(pexels: string, unsplash: string, pixabay: string)

  predicate HasKey(keys: ApiKeys, k: ImageSource) {
    match k
    case PexelsSource => keys.pexels != ""
    case UnsplashSource => keys.unsplash != ""
    case PixabaySource => keys.pixabay != ""
  }

  /** The sources of app/search/aggregator.py: a known key whose API key is set. */
  function KeyedSources(priority: seq<string>, keys: ApiKeys): (ks: seq<ImageSource>)
    ensures |ks| <= |priority|
  {
    if priority == [] then []
    else
      var k := SourceOf(priority[|priority| - 1]);
      KeyedSources(priority[..|priority| - 1], keys) + (if k.Some? && HasKey(keys, k.value) then [k.value] else [])
  }

  /** The registry of app/search/aggregator.py: Pexels alone, key or not, when nothing qualifies. */
  function KeyGatedRegistry(priority: seq<string>, keys: ApiKeys): (ks: seq<ImageSource>)
    ensures ks != []
  {
    var known := KeyedSources(priority, keys);
    if known == [] then [PexelsSource] else known
  }

  /** The registration loop of app/search/aggregator.py. */
  method BuildKeyGatedRegistry(priority: seq<string>, keys: ApiKeys) returns (providers: seq<ImageSource>)
    ensures providers == KeyGatedRegistry(priority, keys)
  {
    providers := [];
    for i := 0 to |priority|
      invariant providers == KeyedSources(priority[..i], keys)
    {
      assert priority[..i + 1][..i] == priority[..i];
      var name := priority[i];
      if name == "pexels" && keys.pexels != "" {
        providers := providers + [PexelsSource];
      } else if name == "unsplash" && keys.unsplash != "" {
        providers := providers + [UnsplashSource];
      } else if name == "pixabay" && keys.pixabay != "" {
        providers := providers + [PixabaySource];
      }
    }
    assert priority[..|priority|] == priority;
    if providers == [] {
      providers := [PexelsSource];
    }
  }

  /** The key gate only removes sources: the keyed sources are the known ones whose key is set. */
  lemma {:induction false} KeyedIsKnownWithKey(priority: seq<string>, keys: ApiKeys)
    ensures KeyedSources(priority, keys) == Filter(KnownSources(priority), (k: ImageSource) => HasKey(keys, k))
  {
    if priority != [] {
      var init := priority[..|priority| - 1];
      KeyedIsKnownWithKey(init, keys);
      var k := SourceOf(priority[|priority| - 1]);
      var tail := if k.Some? then [k.value] else [];
      FilterSplice(KnownSources(init), tail, (k: ImageSource) => HasKey(keys, k));
      if k.Some? {
        assert tail[..0] == [];
      }
    }
  }

  /** With every API key set, both registries agree. */
  lemma AllKeysSetSameRegistry(priority: seq<string>, keys: ApiKeys)
    requires keys.pexels != "" && keys.unsplash != "" && keys.pixabay != ""
    ensures KeyGatedRegistry(priority, keys) == Registry(priority)
  {
    KeyedIsKnownWithKey(priority, keys);
    FilterKeepsAll(KnownSources(priority), (k: ImageSource) => HasKey(keys, k));
  }

  /** The four placeholder URLs returned when every provider fails. */
  const Placeholders: seq<string> := [
    "https://via.placeholder.com/800x600/333333/ffffff?text=Image+1",
    "https://via.placeholder.com/800x600/444444/ffffff?text=Image+2",
    "https://via.placeholder.com/800x600/555555/ffffff?text=Image+3",
    "https://via.placeholder.com/800x600/666666/ffffff?text=Image+4"
  ]

  /** `_get_default_images`: the first `count` placeholders. */
  function DefaultImages(count: int): (r: seq<string>)
    ensures r <= Placeholders
    ensures count >= 0 ==> |r| == (if count < 4 then count else 4)
  {
    Take(Placeholders, count)
  }

  /** What one provider's `search_images` did. */
  datatype UrlOutcome = Urls(urls: seq<string>) | Raised

  /** What `download_image_to` did: saved, failed (returned False), or raised (its `mkdir`
      is outside its own `try`). */
  datatype Download = Saved | NotSaved | DownloadRaised

  /** `f"{class name lowercased}_{idx+1:02d}.jpg"`. */
  function FileName(k: ImageSource, idx: nat): string {
    Lower(ClassName(k)) + "_" + ZeroPad2(idx + 1) + ".jpg"
  }

  /** `str(images_dir / filename)` for a directory written without a trailing separator. */
  function PathIn(dir: string, name: string): string {
    dir + "/" + name
  }

  /** Where one provider's batch of URLs left `saved_paths`, and whether a download raised. */
  datatype Batch = Batch(saved: seq<string>, raised: bool)

  /** The URL loop from position `i` on: with a run folder each URL is downloaded to its own
      file and kept when saved; without one the URL itself is kept. */
  function BatchFrom(saved: seq<string>, k: ImageSource, urls: seq<string>, i: nat,
                     runDir: Option<string>, download: (string, string) -> Download): (b: Batch)
    requires i <= |urls|
    ensures saved <= b.saved
    decreases |urls| - i
  {
    if i == |urls| then Batch(saved, false)
    else if runDir.None? then BatchFrom(saved + [urls[i]], k, urls, i + 1, runDir, download)
    else
      var path := PathIn(runDir.value, FileName(k, i));
      match download(path, urls[i])
      case Saved => BatchFrom(saved + [path], k, urls, i + 1, runDir, download)
      case NotSaved => BatchFrom(saved, k, urls, i + 1, runDir, download)
      case DownloadRaised => Batch(saved, true)
  }

  /** The provider loop from provider `0` of the given suffix on, `saved` being what earlier
      providers left in `saved_paths`. */
  function ChainFrom(saved: seq<string>, providers: seq<ImageSource>, outcomes: seq<UrlOutcome>, count: int,
                     runDir: Option<string>, download: (string, string) -> Download): seq<string>
    requires |providers| == |outcomes|
    decreases |providers|
  {
    if providers == [] then DefaultImages(count)
    else
      match outcomes[0]
      case Raised => ChainFrom(saved, providers[1..], outcomes[1..], count, runDir, download)
      case Urls(urls) =>
        if urls == [] then ChainFrom(saved, providers[1..], outcomes[1..], count, runDir, download)
        else
          var b := BatchFrom(saved, providers[0], Take(urls, count), 0, runDir, download);
          if !b.raised && b.saved != [] then Take(b.saved, count)
          else ChainFrom(b.saved, providers[1..], outcomes[1..], count, runDir, download)
  }

  /** What `search_images` returns when provider `i` answers `outcomes[i]`. */
  function SearchResult(providers: seq<ImageSource>, outcomes: seq<UrlOutcome>, count: int,
                        runDir: Option<string>, download: (string, string) -> Download): seq<string>
    requires |providers| == |outcomes|
  {
    ChainFrom([], providers, outcomes, count, runDir, download)
  }

  /** `ImageAggregator.search_images` (both variants). */
  method SearchImages(providers: seq<ImageSource>, outcomes: seq<UrlOutcome>, count: int,
                      runDir: Option<string>, download: (string, string) -> Download) returns (r: seq<string>)
    requires |providers| == |outcomes|
    ensures r == SearchResult(providers, outcomes, count, runDir, download)
  {
    var savedPaths: seq<string> := [];
    var i := 0;
    while i < |providers|
      invariant 0 <= i <= |providers|
      invariant ChainFrom(savedPaths, providers[i..], outcomes[i..], count, runDir, download)
                == SearchResult(providers, outcomes, count, runDir, download)
    {
      var provider := providers[i];
      assert providers[i..][1..] == providers[i + 1..] && outcomes[i..][1..] == outcomes[i + 1..];
      if outcomes[i].Urls? && outcomes[i].urls != [] {
        var batch := Take(outcomes[i].urls, count);
        var raised;
        savedPaths, raised := DownloadBatch(savedPaths, provider, batch, runDir, download);
        if !raised && savedPaths != [] {
          return Take(savedPaths, count);
        }
      }
      i := i + 1;
    }
    r := DefaultImages(count);
  }

  /** The URL loop of one provider's batch, stopped by a download that raises. */
  method DownloadBatch(before: seq<string>, provider: ImageSource, batch: seq<string>,
                       runDir: Option<string>, download: (string, string) -> Download)
    returns (savedPaths: seq<string>, raised: bool)
    ensures Batch(savedPaths, raised) == BatchFrom(before, provider, batch, 0, runDir, download)
  {
    savedPaths := before;
    raised := false;
    var idx := 0;
    while idx < |batch|
      invariant 0 <= idx <= |batch|
      invariant BatchFrom(savedPaths, provider, batch, idx, runDir, download)
             == BatchFrom(before, provider, batch, 0, runDir, download)
    {
      var url := batch[idx];
      if runDir.Some? {
        var outPath := PathIn(runDir.value, FileName(provider, idx));
        var ok := download(outPath, url);
        if ok == DownloadRaised {
          raised := true;
          return;
        }
        if ok == Saved {
          savedPaths := savedPaths + [outPath];
        }
      } else {
        savedPaths := savedPaths + [url];
      }
      idx := idx + 1;
    }
  }

  /** With a positive count the answer is never empty and never longer than the count. */
  lemma {:induction false} ChainBounded(saved: seq<string>, providers: seq<ImageSource>, outcomes: seq<UrlOutcome>,
                                        count: int, runDir: Option<string>, download: (string, string) -> Download)
    requires |providers| == |outcomes| && count >= 1
    ensures var r := ChainFrom(saved, providers, outcomes, count, runDir, download);
            1 <= |r| <= count
    decreases |providers|
  {
    if providers != [] {
      ChainBounded(saved, providers[1..], outcomes[1..], count, runDir, download);
      if outcomes[0].Urls? && outcomes[0].urls != [] {
        var b := BatchFrom(saved, providers[0], Take(outcomes[0].urls, count), 0, runDir, download);
        ChainBounded(b.saved, providers[1..], outcomes[1..], count, runDir, download);
      }
    }
  }

  /** Without a run folder no download happens: the answer is the first non-empty batch of
      URLs a provider returned, as returned, or the placeholders. */
  function FirstBatch(outcomes: seq<UrlOutcome>, count: int): seq<string> {
    if outcomes == [] then DefaultImages(count)
    else if outcomes[0].Urls? && outcomes[0].urls != [] && Take(outcomes[0].urls, count) != [] then
      Take(Take(outcomes[0].urls, count), count)
    else FirstBatch(outcomes[1..], count)
  }

  /** Without a run folder, a batch keeps every URL in order. */
  lemma {:induction false} BatchWithoutRunDir(saved: seq<string>, k: ImageSource, urls: seq<string>, i: nat,
                                              download: (string, string) -> Download)
    requires i <= |urls|
    ensures BatchFrom(saved, k, urls, i, None, download) == Batch(saved + urls[i..], false)
    decreases |urls| - i
  {
    if i < |urls| {
      BatchWithoutRunDir(saved + [urls[i]], k, urls, i + 1, download);
      assert saved + [urls[i]] + urls[i + 1..] == saved + urls[i..];
    }
  }

  lemma {:induction false} ChainWithoutRunDir(providers: seq<ImageSource>, outcomes: seq<UrlOutcome>, count: int,
                                              download: (string, string) -> Download)
    requires |providers| == |outcomes|
    ensures SearchResult(providers, outcomes, count, None, download) == FirstBatch(outcomes, count)
  {
    if providers != [] {
      ChainWithoutRunDir(providers[1..], outcomes[1..], count, download);
      if outcomes[0].Urls? && outcomes[0].urls != [] {
        var batch := Take(outcomes[0].urls, count);
        BatchWithoutRunDir([], providers[0], batch, 0, download);
        assert [] + batch[0..] == batch;
      }
    }
  }

  /** A saved file's path: under the run folder, named after a registered provider and a
      position in its batch. */
  ghost predicate IsSavedPath(p: string, dir: string, providers: seq<ImageSource>) {
    exists k, idx: nat :: k in providers && p == PathIn(dir, FileName(k, idx))
  }

  /** Every path kept so far is a saved file's path. */
  ghost predicate AllSaved(saved: seq<string>, dir: string, providers: seq<ImageSource>) {
    forall p :: p in saved ==> IsSavedPath(p, dir, providers)
  }

  lemma AllSavedSnoc(saved: seq<string>, dir: string, providers: seq<ImageSource>, k: ImageSource, idx: nat)
    requires AllSaved(saved, dir, providers) && k in providers
    ensures AllSaved(saved + [PathIn(dir, FileName(k, idx))], dir, providers)
  {
    assert IsSavedPath(PathIn(dir, FileName(k, idx)), dir, providers);
  }

  lemma {:induction false} BatchPaths(saved: seq<string>, k: ImageSource, urls: seq<string>, i: nat, dir: string,
                                      download: (string, string) -> Download, providers: seq<ImageSource>)
    requires i <= |urls| && k in providers
    requires AllSaved(saved, dir, providers)
    ensures AllSaved(BatchFrom(saved, k, urls, i, Some(dir), download).saved, dir, providers)
    decreases |urls| - i
  {
    if i < |urls| {
      var path := PathIn(dir, FileName(k, i));
      var b := BatchFrom(saved, k, urls, i, Some(dir), download);
      match download(path, urls[i])
      case Saved =>
        AllSavedSnoc(saved, dir, providers, k, i);
        assert b == BatchFrom(saved + [path], k, urls, i + 1, Some(dir), download);
        BatchPaths(saved + [path], k, urls, i + 1, dir, download, providers);
      case NotSaved =>
        assert b == BatchFrom(saved, k, urls, i + 1, Some(dir), download);
        BatchPaths(saved, k, urls, i + 1, dir, download, providers);
      case DownloadRaised =>
        assert b.saved == saved;
    }
  }

  lemma {:induction false} ChainPaths(saved: seq<string>, providers: seq<ImageSource>, outcomes: seq<UrlOutcome>,
                                      count: int, dir: string, download: (string, string) -> Download,
                                      all: seq<ImageSource>)
    requires |providers| == |outcomes|
    requires forall k :: k in providers ==> k in all
    requires forall p :: p in saved ==> IsSavedPath(p, dir, all)
    ensures forall p :: p in ChainFrom(saved, providers, outcomes, count, Some(dir), download) ==>
              p in Placeholders || IsSavedPath(p, dir, all)
    decreases |providers|
  {
    if providers != [] {
      ChainPaths(saved, providers[1..], outcomes[1..], count, dir, download, all);
      if outcomes[0].Urls? && outcomes[0].urls != [] {
        var b := BatchFrom(saved, providers[0], Take(outcomes[0].urls, count), 0, Some(dir), download);
        BatchPaths(saved, providers[0], Take(outcomes[0].urls, count), 0, dir, download, all);
        ChainPaths(b.saved, providers[1..], outcomes[1..], count, dir, download, all);
      }
    }
  }

  /** With a run folder, every answer is a placeholder or a file saved under that folder. */
  lemma RunDirAnswersAreFiles(providers: seq<ImageSource>, outcomes: seq<UrlOutcome>, count: int, dir: string,
                              download: (string, string) -> Download)
    requires |providers| == |outcomes|
    ensures forall p :: p in SearchResult(providers, outcomes, count, Some(dir), download) ==>
              p in Placeholders || IsSavedPath(p, dir, providers)
  {
    ChainPaths([], providers, outcomes, count, dir, download, providers);
  }

  /** A provider all of whose downloads fail counts as empty: the chain moves on as if it
      had returned nothing. */
  lemma {:induction false} AllDownloadsFailedSkips(providers: seq<ImageSource>, outcomes: seq<UrlOutcome>, count: int,
                                                   dir: string, download: (string, string) -> Download)
    requires |providers| == |outcomes| && providers != [] && outcomes[0].Urls?
    requires forall p, u :: download(p, u) == NotSaved
    ensures ChainFrom([], providers, outcomes, count, Some(dir), download)
            == ChainFrom([], providers[1..], outcomes[1..], count, Some(dir), download)
  {
    if outcomes[0].urls != [] {
      AllFailedBatch(providers[0], Take(outcomes[0].urls, count), 0, dir, download);
    }
  }

  lemma {:induction false} AllFailedBatch(k: ImageSource, urls: seq<string>, i: nat, dir: string,
                                          download: (string, string) -> Download)
    requires i <= |urls|
    requires forall p, u :: download(p, u) == NotSaved
    ensures BatchFrom([], k, urls, i, Some(dir), download) == Batch([], false)
    decreases |urls| - i
  {
    if i < |urls| {
      AllFailedBatch(k, urls, i + 1, dir, download);
    }
  }

  /** The first two characters of a provider's file names. */
  function Initials(k: ImageSource): (char, char) {
    match k
    case PexelsSource => ('p', 'e')
    case UnsplashSource => ('u', 'n')
    case PixabaySource => ('p', 'i')
  }

  /** The first two characters of a file name identify the provider. */
  lemma FileNameHead(k: ImageSource, idx: nat)
    ensures FileName(k, idx)[0] == Initials(k).0 && FileName(k, idx)[1] == Initials(k).1
  {
    var c := ClassName(k);
    var p := Lower(c);
    ClassInitials(k);
    assert p[0] == LowerChar(c[0]) && p[1] == LowerChar(c[1]);
    HeadOfConcat(p, "_", ZeroPad2(idx + 1), ".jpg");
  }

  lemma ClassInitials(k: ImageSource)
    ensures |ClassName(k)| >= 2
    ensures LowerChar(ClassName(k)[0]) == Initials(k).0 && LowerChar(ClassName(k)[1]) == Initials(k).1
  {
  }

  lemma HeadOfConcat(p: string, a: string, b: string, c: string)
    requires |p| >= 2
    ensures (p + a + b + c)[0] == p[0] && (p + a + b + c)[1] == p[1]
  {
  }

  /** Equal strings with equal ends have equal middles. */
  lemma CancelAffixes(p: string, z1: string, z2: string, t: string)
    requires p + z1 + t == p + z2 + t
    ensures z1 == z2
  {
    var n := p + z1 + t;
    assert |z1| == |z2|;
    assert z1 == n[|p|..|p| + |z1|];
    assert z2 == (p + z2 + t)[|p|..|p| + |z2|];
  }

  /** A file name determines the provider and the position it was saved under: equal names mean
      the same provider and the same position. */
  lemma FileNamesDistinct(k1: ImageSource, i1: nat, k2: ImageSource, i2: nat)
    requires FileName(k1, i1) == FileName(k2, i2)
    ensures k1 == k2 && i1 == i2
  {
    FileNameHead(k1, i1);
    FileNameHead(k2, i2);
    assert Initials(k1) == Initials(k2);
    var z1 := ZeroPad2(i1 + 1);
    var z2 := ZeroPad2(i2 + 1);
    CancelAffixes(Lower(ClassName(k1)) + "_", z1, z2, ".jpg");
  }

  /** `PexelsProvider.search_images` of app/images/providers: with no key, a failed request
      or no photos it answers the first `count` of its own fallback URLs; it never raises. */
  function PexelsUrls(apiKey: string, response: Option<seq<string>>, count: int): (o: UrlOutcome)
    ensures o.Urls?
    ensures count >= 1 ==> o.urls != []
  {
    var fallback := Take(PexelsFallback, count);
    if apiKey == "" then Urls(fallback)
    else if response.Some? && response.value != [] then Urls(response.value)
    else Urls(fallback)
  }

  const PexelsFallback: seq<string> := [
    "https://images.pexels.com/photos/2280571/pexels-photo-2280571.jpeg",
    "https://images.pexels.com/photos/1181677/pexels-photo-1181677.jpeg",
    "https://images.pexels.com/photos/1181675/pexels-photo-1181675.jpeg",
    "https://images.pexels.com/photos/1181673/pexels-photo-1181673.jpeg"
  ]

  /** With that Pexels adapter first in the chain and a positive count, the chain without a
      run folder never reaches the placeholders. */
  lemma PexelsFirstAnswers(providers: seq<ImageSource>, outcomes: seq<UrlOutcome>, count: int,
                           apiKey: string, response: Option<seq<string>>, download: (string, string) -> Download)
    requires |providers| == |outcomes| && providers != [] && count >= 1
    requires outcomes[0] == PexelsUrls(apiKey, response, count)
    ensures SearchResult(providers, outcomes, count, None, download) == Take(PexelsUrls(apiKey, response, count).urls, count)
  {
    ChainWithoutRunDir(providers, outcomes, count, download);
  }
}
