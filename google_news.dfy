/** The Google News RSS source (app/content/rss_google_provider.py): the first `fetch_limit`
    feed entries with a title and a link become candidates, recently used links are avoided
    when possible, and the candidates are shuffled and cut to the limit. The feed, the clock,
    the seen file and the random generator are parameters. */
module GoogleNews {
  import opened Wrappers
  import opened PyStr
  import opened Freshness
  import opened Seqs
  import opened ContentBase

  /** One feed entry; a missing field reads as "". */
  datatype Entry = Entry(title: string, link: string, summary: string)

  datatype Settings = Settings(fetchLimit: int, seenTtlSec: int)

  const DaySec: int := 60 * 60 * 24

  /** `__init__`: at least 5 entries are considered. */
  function NewSettings(fetchLimit: int, seenTtlSec: int): (c: Settings)
    ensures c.fetchLimit >= 5 && (fetchLimit >= 5 ==> c.fetchLimit == fetchLimit)
    ensures c.seenTtlSec == seenTtlSec
  {
    Settings(if fetchLimit < 5 then 5 else fetchLimit, seenTtlSec)
  }

  /** The settings a provider built with no arguments has. */
  function DefaultSettings(): (c: Settings)
    ensures c.fetchLimit == 40 && c.seenTtlSec == DaySec
  {
    NewSettings(40, DaySec)
  }

  /** An entry is usable when it has both a title and a link. */
  predicate Usable(e: Entry) {
    e.title != "" && e.link != ""
  }

  function ToCandidate(e: Entry): ContentItem {
    ContentItem(e.title, e.summary, e.link, "rss_google")
  }

  /** The candidates built from some entries, in feed order. */
  function CandidatesOf(entries: seq<Entry>): (cands: seq<ContentItem>)
    ensures |cands| <= |entries|
  {
    if entries == [] then []
    else
      var e := entries[|entries| - 1];
      CandidatesOf(entries[..|entries| - 1]) + (if Usable(e) then [ToCandidate(e)] else [])
  }

  /** The candidates are exactly the usable entries, each tagged "rss_google". */
  lemma {:induction false} CandidatesAreUsableEntries(entries: seq<Entry>, c: ContentItem)
    ensures c in CandidatesOf(entries) <==> exists e :: e in entries && Usable(e) && c == ToCandidate(e)
    ensures c in CandidatesOf(entries) ==> c.title != "" && c.link != "" && c.source == "rss_google"
  {
    if entries != [] {
      var init := entries[..|entries| - 1];
      var e := entries[|entries| - 1];
      assert entries == init + [e];
      CandidatesAreUsableEntries(init, c);
      if c in CandidatesOf(init) {
        var e' :| e' in init && Usable(e') && c == ToCandidate(e');
        assert e' in entries;
      }
    }
  }

  /** The candidate loop over `entries[:fetch_limit]`. */
  method BuildCandidates(cfg: Settings, entries: seq<Entry>) returns (cands: seq<ContentItem>)
    ensures cands == CandidatesOf(Take(entries, cfg.fetchLimit))
  {
    var window := Take(entries, cfg.fetchLimit);
    cands := [];
    for i := 0 to |window|
      invariant cands == CandidatesOf(window[..i])
    {
      assert window[..i + 1][..i] == window[..i];
      var e := window[i];
      if e.title == "" || e.link == "" {
        continue;
      }
      cands := cands + [ToCandidate(e)];
    }
    assert window[..|window|] == window;
  }

  function Links(items: seq<ContentItem>): (ks: seq<string>)
    ensures |ks| == |items| && forall i :: 0 <= i < |items| ==> ks[i] == items[i].link
  {
    seq(|items|, i requires 0 <= i < |items| => items[i].link)
  }

  /** `fresh`: the candidates whose link is not in the pruned seen map. */
  function Unseen(cands: seq<ContentItem>, seen: SeenMap): seq<ContentItem> {
    Filter(cands, (c: ContentItem) => c.link !in seen)
  }

  /** With an empty seen map every candidate is fresh. */
  lemma UnseenWhenNothingSeen(cands: seq<ContentItem>)
    ensures Unseen(cands, map[]) == cands
  {
    var seen: SeenMap := map[];
    FilterKeepsAll(cands, (c: ContentItem) => c.link !in seen);
  }

  /** `pool`: the fresh candidates, or every candidate when none is fresh. */
  function Pool(cands: seq<ContentItem>, seen: SeenMap): seq<ContentItem> {
    var unseen := Unseen(cands, seen);
    if unseen != [] then unseen else cands
  }

  /** The items `search` returns: the pool shuffled and cut to the limit. */
  function Chosen(cands: seq<ContentItem>, seen: SeenMap, limit: int, draws: seq<nat>): seq<ContentItem> {
    Take(Shuffle(Pool(cands, seen), draws), AtLeastOne(limit))
  }

  /** The whole of `search`: an empty feed or no usable entry returns an empty list without
      reading the seen file; otherwise a pruning error propagates, and the chosen links are
      recorded at the second clock reading. */
  function SearchResult(cfg: Settings, limit: int, entries: seq<Entry>, file: StoreFile,
                        pruneClock: int, recordClock: int, draws: seq<nat>): (r: Result<Outcome, PruneError>)
    ensures CandidatesOf(Take(entries, cfg.fetchLimit)) == [] ==> r == Ok(Outcome([], None))
    ensures CandidatesOf(Take(entries, cfg.fetchLimit)) != [] ==>
              (r.Err? <==> Prune(LoadSeen(file), pruneClock, cfg.seenTtlSec).Err?)
  {
    if entries == [] then Ok(Outcome([], None))
    else
      var cands := CandidatesOf(Take(entries, cfg.fetchLimit));
      if cands == [] then Ok(Outcome([], None))
      else
        match Prune(LoadSeen(file), pruneClock, cfg.seenTtlSec)
        case Err(e) => Err(e)
        case Ok(seen) =>
          var chosen := Chosen(cands, seen, limit, draws);
          Ok(Outcome(chosen, Some(Record(seen, Links(chosen), recordClock))))
  }

  /** What a successful search saves: the pruned store with every chosen key stamped with the
      second clock reading and every other key unchanged; the answer is the chosen items. */
  lemma SearchRecordsChosen(cfg: Settings, limit: int, entries: seq<Entry>, file: StoreFile,
                            pruneClock: int, recordClock: int, draws: seq<nat>,
                            seen: SeenMap, chosen: seq<ContentItem>)
    requires CandidatesOf(Take(entries, cfg.fetchLimit)) != []
    requires Prune(LoadSeen(file), pruneClock, cfg.seenTtlSec) == Ok(seen)
    requires chosen == Chosen(CandidatesOf(Take(entries, cfg.fetchLimit)), seen, limit, draws)
    ensures var r := SearchResult(cfg, limit, entries, file, pruneClock, recordClock, draws);
      var keys := Links(chosen);
      && r.Ok?
      && r.value.items == chosen
      && r.value.saved.Some?
      && (forall k :: k in r.value.saved.value <==> k in seen || k in keys)
      && (forall k :: k in keys ==> r.value.saved.value[k] == recordClock)
      && (forall k :: k in seen && k !in keys ==> r.value.saved.value[k] == seen[k])
  {
    var saved := Record(seen, Links(chosen), recordClock);
    assert entries != [];
    assert SearchResult(cfg, limit, entries, file, pruneClock, recordClock, draws) == Ok(Outcome(chosen, Some(saved)));
  }

  /** `GoogleNewsRSSProvider.search`, given the parsed feed's entries. */
  method Search(cfg: Settings, limit: int, entries: seq<Entry>, file: StoreFile,
                pruneClock: int, recordClock: int, draws: seq<nat>) returns (r: Result<Outcome, PruneError>)
    ensures r == SearchResult(cfg, limit, entries, file, pruneClock, recordClock, draws)
  {
    var n := AtLeastOne(limit);
    if entries == [] {
      return Ok(Outcome([], None));
    }
    var cands := BuildCandidates(cfg, entries);
    if cands == [] {
      return Ok(Outcome([], None));
    }
    var pruned := Prune(LoadSeen(file), pruneClock, cfg.seenTtlSec);
    if pruned.Err? {
      return Err(pruned.error);
    }
    var seen := pruned.value;
    var unseen := Filter(cands, (c: ContentItem) => c.link !in seen);
    assert unseen == Unseen(cands, seen);
    var pool := if unseen != [] then unseen else cands;
    pool := Shuffle(pool, draws);
    var chosen := Take(pool, n);
    var updated := RecordChosen(seen, chosen, recordClock);
    r := Ok(Outcome(chosen, Some(updated)));
  }

  /** The loop `seen[c.link] = now` over the chosen items. */
  method RecordChosen(seen: SeenMap, chosen: seq<ContentItem>, now: int) returns (updated: SeenMap)
    ensures updated == Record(seen, Links(chosen), now)
  {
    updated := seen;
    for i := 0 to |chosen|
      invariant updated == Record(seen, Links(chosen[..i]), now)
    {
      assert Links(chosen[..i + 1]) == Links(chosen[..i]) + [chosen[i].link];
      RecordSnoc(seen, Links(chosen[..i]), chosen[i].link, now);
      updated := updated[chosen[i].link := now];
    }
    assert chosen[..|chosen|] == chosen;
  }

  /** How many items are chosen: the limit capped by the pool, and none only when there is
      no candidate. */
  lemma ChosenCount(cands: seq<ContentItem>, seen: SeenMap, limit: int, draws: seq<nat>)
    ensures var pool := Pool(cands, seen);
            |Chosen(cands, seen, limit, draws)| == (if AtLeastOne(limit) < |pool| then AtLeastOne(limit) else |pool|)
    ensures cands != [] <==> Chosen(cands, seen, limit, draws) != []
  {
  }

  /** Every chosen item is a candidate, and while any candidate is unseen only unseen ones are chosen. */
  lemma ChosenFromPool(cands: seq<ContentItem>, seen: SeenMap, limit: int, draws: seq<nat>, c: ContentItem)
    requires c in Chosen(cands, seen, limit, draws)
    ensures c in cands
    ensures Unseen(cands, seen) != [] ==> c.link !in seen
  {
    var shuffled := Shuffle(Pool(cands, seen), draws);
    assert c in shuffled;
    assert c in multiset(shuffled);
    assert c in Pool(cands, seen);
  }

  /** When every candidate shares one link, so does every chosen item. */
  lemma ChosenShareLink(cands: seq<ContentItem>, seen: SeenMap, limit: int, draws: seq<nat>, k: string)
    requires forall c :: c in cands ==> c.link == k
    ensures forall c :: c in Chosen(cands, seen, limit, draws) ==> c.link == k
  {
    forall c | c in Chosen(cands, seen, limit, draws)
      ensures c.link == k
    {
      ChosenFromPool(cands, seen, limit, draws, c);
    }
  }

  /** With no seen file, a call with candidates chooses from all of them and succeeds. */
  lemma SearchWithoutFile(cfg: Settings, limit: int, entries: seq<Entry>, pruneClock: int, recordClock: int, draws: seq<nat>)
    requires CandidatesOf(Take(entries, cfg.fetchLimit)) != []
    ensures var cands := CandidatesOf(Take(entries, cfg.fetchLimit));
            var r := SearchResult(cfg, limit, entries, Missing, pruneClock, recordClock, draws);
            r.Ok? && r.value.items == Chosen(cands, map[], limit, draws) && Pool(cands, map[]) == cands
  {
    PruneMissing(pruneClock, cfg.seenTtlSec);
    UnseenWhenNothingSeen(CandidatesOf(Take(entries, cfg.fetchLimit)));
  }

  /** A call with no seen file, over candidates that all share the link `k`, returns as many
      items as the limit asks for (when there are enough), every one of them with link `k`. */
  lemma SharedLinkChosen(cfg: Settings, limit: int, entries: seq<Entry>, pruneClock: int, recordClock: int,
                         draws: seq<nat>, k: string)
    requires AtLeastOne(limit) <= |CandidatesOf(Take(entries, cfg.fetchLimit))|
    requires forall c :: c in CandidatesOf(Take(entries, cfg.fetchLimit)) ==> c.link == k
    ensures var r := SearchResult(cfg, limit, entries, Missing, pruneClock, recordClock, draws);
            r.Ok? && |r.value.items| == AtLeastOne(limit) && forall c :: c in r.value.items ==> c.link == k
  {
    var cands := CandidatesOf(Take(entries, cfg.fetchLimit));
    SearchWithoutFile(cfg, limit, entries, pruneClock, recordClock, draws);
    ChosenCount(cands, map[], limit, draws);
    ChosenShareLink(cands, map[], limit, draws, k);
  }

  /** Nothing in the feed prevents the same link from being chosen twice in one call: two
      entries sharing a link, both chosen. */
  lemma DuplicateLinksCanBeChosen()
    ensures var e1 := Entry("A", "u", "");
            var e2 := Entry("B", "u", "");
            var r := SearchResult(DefaultSettings(), 2, [e1, e2], Missing, 0, 0, []);
            r.Ok? && |r.value.items| == 2 && r.value.items[0].link == r.value.items[1].link
  {
    var e1 := Entry("A", "u", "");
    var e2 := Entry("B", "u", "");
    var entries := [e1, e2];
    assert Take(entries, 40) == entries;
    assert entries[..1] == [e1];
    assert CandidatesOf([e1]) == [ToCandidate(e1)];
    assert CandidatesOf(entries) == [ToCandidate(e1), ToCandidate(e2)];
    SharedLinkChosen(DefaultSettings(), 2, entries, 0, 0, [], "u");
    var r := SearchResult(DefaultSettings(), 2, entries, Missing, 0, 0, []);
    assert r.value.items[0] in r.value.items && r.value.items[1] in r.value.items;
  }

  /** Across two calls: a link returned by one call is not returned by the next call made
      within the window, as long as that call has any candidate never recorded. */
  lemma {:induction false} NoRepeatWithinWindow(
    cfg: Settings, file: StoreFile,
    limit1: int, entries1: seq<Entry>, prune1: int, record1: int, draws1: seq<nat>,
    limit2: int, entries2: seq<Entry>, prune2: int, record2: int, draws2: seq<nat>,
    i: nat, q: ContentItem)
    requires SearchResult(cfg, limit1, entries1, file, prune1, record1, draws1).Ok?
    requires i < |SearchResult(cfg, limit1, entries1, file, prune1, record1, draws1).value.items|
    requires Within(prune2, record1, cfg.seenTtlSec)
    requires q in CandidatesOf(Take(entries2, cfg.fetchLimit))
    requires q.link !in SearchResult(cfg, limit1, entries1, file, prune1, record1, draws1).value.saved.value
    ensures var first := SearchResult(cfg, limit1, entries1, file, prune1, record1, draws1).value;
            var second := SearchResult(cfg, limit2, entries2, Saved(first.saved.value), prune2, record2, draws2);
            second.Ok? && forall j :: 0 <= j < |second.value.items| ==> second.value.items[j].link != first.items[i].link
  {
    var cands1 := CandidatesOf(Take(entries1, cfg.fetchLimit));
    var seen1 := Prune(LoadSeen(file), prune1, cfg.seenTtlSec).value;
    var chosen1 := Chosen(cands1, seen1, limit1, draws1);
    var m := Record(seen1, Links(chosen1), record1);
    var k := chosen1[i].link;
    assert Links(chosen1)[i] == k;
    RecordedStaysSeen(seen1, Links(chosen1), record1, prune2, cfg.seenTtlSec, k);
    var seen2 := Prune(LoadSeen(Saved(m)), prune2, cfg.seenTtlSec).value;
    assert k in seen2;
    assert q.link !in seen2;
    var cands2 := CandidatesOf(Take(entries2, cfg.fetchLimit));
    assert q in Unseen(cands2, seen2);
    var chosen2 := Chosen(cands2, seen2, limit2, draws2);
    forall j | 0 <= j < |chosen2| ensures chosen2[j].link != k {
      ChosenFromPool(cands2, seen2, limit2, draws2, chosen2[j]);
    }
  }
}
