/** The Reddit text source (app/content/reddit_provider.py): posts fetched from several
    subreddits are filtered, deduplicated by permalink, steered away from recently used
    permalinks, ranked by engagement, and a few are drawn at random from the top of the
    ranking; the draw is recorded in the seen store. The network fetch, the clock, the
    seen file and the random generator are parameters. */
module Reddit {
  import opened Wrappers
  import opened PyStr
  import opened Freshness
  import opened Seqs
  import opened ContentBase

  /** One post as `_fetch_posts` builds it (the permalink already carries the site prefix). */
  datatype RedditPost = RedditPost(
    title: string, selftext: string, permalink: string,
    score: int, numComments: int, createdUtc: int,
    subreddit: string, isNsfw: bool)

  /** The provider's settings after `__init__`. */
  datatype Settings = Settings(
    subreddits: seq<string>, fetchLimit: int, seenTtlSec: int, minTextLen: int, allowNsfw: bool)

  const DefaultSubreddits: seq<string> := ["TrueCrime", "UnresolvedMysteries", "MorbidReality"]
  const WeekSec: int := 60 * 60 * 24 * 7
  /** How many of the best-ranked posts the random draw chooses from. */
  const TopWindow: int := 15
  /** Summaries longer than this are cut and marked with "...". */
  const SummaryMax: int := 1200

  /** `__init__`: no list (or an empty one) selects the default subreddits, and
      at least 10 posts are requested per subreddit. */
  function NewSettings(subreddits: Option<seq<string>>, fetchLimit: int, seenTtlSec: int,
                       minTextLen: int, allowNsfw: bool): (c: Settings)
    ensures c.subreddits != []
    ensures subreddits.Some? && subreddits.value != [] ==> c.subreddits == subreddits.value
    ensures c.fetchLimit >= 10 && (fetchLimit >= 10 ==> c.fetchLimit == fetchLimit)
    ensures c.seenTtlSec == seenTtlSec && c.minTextLen == minTextLen && c.allowNsfw == allowNsfw
  {
    var subs := if subreddits.Some? && subreddits.value != [] then subreddits.value else DefaultSubreddits;
    Settings(subs, if fetchLimit < 10 then 10 else fetchLimit, seenTtlSec, minTextLen, allowNsfw)
  }

  /** The settings a provider built with no arguments has. */
  function DefaultSettings(): (c: Settings)
    ensures c.subreddits == DefaultSubreddits && c.fetchLimit == 30
    ensures c.seenTtlSec == WeekSec && c.minTextLen == 200 && !c.allowNsfw
  {
    NewSettings(None, 30, WeekSec, 200, false)
  }

  /** What fetching one subreddit did: it returned posts, or it raised (and was skipped). */
  datatype Fetch = Posts(posts: seq<RedditPost>) | FetchFailed

  /** The posts of every successful fetch, in subreddit order. */
  function AllPosts(fetched: seq<Fetch>): (all: seq<RedditPost>)
    ensures forall p :: p in all <==> exists i :: 0 <= i < |fetched| && fetched[i].Posts? && p in fetched[i].posts
  {
    if fetched == [] then []
    else
      var last := fetched[|fetched| - 1];
      var init := AllPosts(fetched[..|fetched| - 1]);
      assert forall i :: 0 <= i < |fetched| - 1 ==> fetched[..|fetched| - 1][i] == fetched[i];
      init + (if last.Posts? then last.posts else [])
  }

  function PermalinkOf(p: RedditPost): string {
    p.permalink
  }

  function Permalinks(posts: seq<RedditPost>): (ks: seq<string>)
    ensures |ks| == |posts| && forall i :: 0 <= i < |posts| ==> ks[i] == posts[i].permalink
  {
    seq(|posts|, i requires 0 <= i < |posts| => posts[i].permalink)
  }

  /** The test `_filter_posts` applies: NSFW posts only when allowed, and a stripped body
      of at least `min_text_len` characters. */
  predicate Keeps(cfg: Settings, p: RedditPost) {
    (cfg.allowNsfw || !p.isNsfw) && |Strip(p.selftext)| >= cfg.minTextLen
  }

  /** The posts `_filter_posts` keeps, in their original order. */
  function Filtered(cfg: Settings, posts: seq<RedditPost>): seq<RedditPost> {
    Filter(posts, (p: RedditPost) => Keeps(cfg, p))
  }

  /** `_filter_posts`. */
  method FilterPosts(cfg: Settings, posts: seq<RedditPost>) returns (filtered: seq<RedditPost>)
    ensures filtered == Filtered(cfg, posts)
  {
    filtered := [];
    for i := 0 to |posts|
      invariant filtered == Filtered(cfg, posts[..i])
    {
      assert posts[..i + 1][..i] == posts[..i];
      var p := posts[i];
      if !cfg.allowNsfw && p.isNsfw {
        continue;
      }
      if |Strip(p.selftext)| < cfg.minTextLen {
        continue;
      }
      filtered := filtered + [p];
    }
    assert posts[..|posts|] == posts;
  }

  /** A post survives filtering exactly when it was fetched and passes the test. */
  lemma FilteredMembers(cfg: Settings, posts: seq<RedditPost>, p: RedditPost)
    ensures p in Filtered(cfg, posts) <==> p in posts && Keeps(cfg, p)
  {
  }

  /** The keys of `uniq` in insertion order: each permalink where it first occurs. */
  function FirstKeys(posts: seq<RedditPost>): (ks: seq<string>)
    ensures forall i, j :: 0 <= i < j < |ks| ==> ks[i] != ks[j]
    ensures forall k :: k in ks <==> k in Permalinks(posts)
  {
    if posts == [] then []
    else
      var init := posts[..|posts| - 1];
      var ks := FirstKeys(init);
      var k := posts[|posts| - 1].permalink;
      assert Permalinks(posts) == Permalinks(init) + [k];
      if k in ks then ks else ks + [k]
  }

  /** The dict `uniq` after the loop: every permalink mapped to the last post carrying it. */
  function Uniq(posts: seq<RedditPost>): (u: map<string, RedditPost>)
    ensures forall k :: k in u <==> k in Permalinks(posts)
    ensures forall k :: k in u ==> u[k].permalink == k && u[k] in posts
  {
    if posts == [] then map[]
    else
      var init := posts[..|posts| - 1];
      var p := posts[|posts| - 1];
      assert Permalinks(posts) == Permalinks(init) + [p.permalink];
      Uniq(init)[p.permalink := p]
  }

  /** `list(uniq.values())`: one post per permalink, in order of first occurrence. */
  function Dedup(posts: seq<RedditPost>): (r: seq<RedditPost>)
    ensures |r| == |FirstKeys(posts)|
    ensures forall i :: 0 <= i < |r| ==> r[i].permalink == FirstKeys(posts)[i] && r[i] in posts
    ensures DistinctBy(r, PermalinkOf)
  {
    var ks := FirstKeys(posts);
    var u := Uniq(posts);
    seq(|ks|, i requires 0 <= i < |ks| => u[ks[i]])
  }

  /** The dict overwrites: the post kept for a permalink is the last one fetched with it. */
  lemma {:induction false} UniqLastWins(posts: seq<RedditPost>, k: string) returns (j: nat)
    requires k in Uniq(posts)
    ensures j < |posts| && posts[j] == Uniq(posts)[k]
    ensures forall j' :: j < j' < |posts| ==> posts[j'].permalink != k
  {
    var init := posts[..|posts| - 1];
    var p := posts[|posts| - 1];
    assert Uniq(posts) == Uniq(init)[p.permalink := p];
    if p.permalink == k {
      j := |posts| - 1;
    } else {
      assert k in Uniq(init) && Uniq(posts)[k] == Uniq(init)[k];
      j := UniqLastWins(init, k);
      assert posts[j] == init[j];
      forall j' | j < j' < |posts|
        ensures posts[j'].permalink != k
      {
        if j' < |posts| - 1 {
          assert posts[j'] == init[j'];
        }
      }
    }
  }

  /** Every fetched permalink is represented after deduplication. */
  lemma DedupCovers(posts: seq<RedditPost>, p: RedditPost)
    requires p in posts
    ensures exists i :: 0 <= i < |Dedup(posts)| && Dedup(posts)[i].permalink == p.permalink
  {
    var i :| 0 <= i < |posts| && posts[i] == p;
    assert Permalinks(posts)[i] == p.permalink;
    var ks := FirstKeys(posts);
    assert p.permalink in ks;
    var m :| 0 <= m < |ks| && ks[m] == p.permalink;
    assert Dedup(posts)[m].permalink == p.permalink;
  }

  /** One more post: the dict maps its permalink to it, and the key order gains the
      permalink when it is new. */
  lemma DedupSnoc(posts: seq<RedditPost>, i: nat)
    requires i < |posts|
    ensures Uniq(posts[..i + 1]) == Uniq(posts[..i])[posts[i].permalink := posts[i]]
    ensures FirstKeys(posts[..i + 1]) ==
              if posts[i].permalink in Uniq(posts[..i]) then FirstKeys(posts[..i])
              else FirstKeys(posts[..i]) + [posts[i].permalink]
  {
    var s := posts[..i + 1];
    assert s[..|s| - 1] == posts[..i];
    assert s[|s| - 1] == posts[i];
  }

  /** The deduplication loop and `list(uniq.values())`. */
  method DedupByPermalink(posts: seq<RedditPost>) returns (candidates: seq<RedditPost>)
    ensures candidates == Dedup(posts)
  {
    var uniq: map<string, RedditPost> := map[];
    var order: seq<string> := [];
    for i := 0 to |posts|
      invariant uniq == Uniq(posts[..i])
      invariant order == FirstKeys(posts[..i])
    {
      DedupSnoc(posts, i);
      var p := posts[i];
      if p.permalink !in uniq {
        order := order + [p.permalink];
      }
      uniq := uniq[p.permalink := p];
    }
    assert posts[..|posts|] == posts;
    candidates := ValuesInOrder(uniq, order);
    assert |candidates| == |Dedup(posts)|;
    assert forall m :: 0 <= m < |candidates| ==> candidates[m] == Dedup(posts)[m];
  }

  /** `list(uniq.values())`, the keys taken in insertion order. */
  method ValuesInOrder(uniq: map<string, RedditPost>, order: seq<string>) returns (values: seq<RedditPost>)
    requires forall k :: k in order ==> k in uniq
    ensures |values| == |order| && forall m :: 0 <= m < |order| ==> values[m] == uniq[order[m]]
  {
    values := [];
    for i := 0 to |order|
      invariant |values| == i
      invariant forall m :: 0 <= m < i ==> values[m] == uniq[order[m]]
    {
      values := values + [uniq[order[i]]];
    }
  }

  /** The candidates: filtered, then one post per permalink. */
  function Candidates(cfg: Settings, all: seq<RedditPost>): seq<RedditPost> {
    Dedup(Filtered(cfg, all))
  }

  /** `fresh`: the candidates whose permalink is not in the pruned seen map. */
  function Unseen(cands: seq<RedditPost>, seen: SeenMap): seq<RedditPost> {
    Filter(cands, (p: RedditPost) => p.permalink !in seen)
  }

  /** `pool`: the fresh candidates, or every candidate when none is fresh. */
  function Pool(cands: seq<RedditPost>, seen: SeenMap): seq<RedditPost> {
    var unseen := Unseen(cands, seen);
    if unseen != [] then unseen else cands
  }

  /** The ranking key `score * 2 + num_comments`. */
  function Rank(p: RedditPost): int {
    p.score * 2 + p.numComments
  }

  predicate RankedDesc(s: seq<RedditPost>) {
    forall i, j :: 0 <= i < j < |s| ==> Rank(s[i]) >= Rank(s[j])
  }

  /** Inserting `x` after every element ranked at least as high (what keeps the sort stable). */
  function InsertByRank(x: RedditPost, s: seq<RedditPost>): (r: seq<RedditPost>)
    ensures |r| == |s| + 1 && multiset(r) == multiset(s) + multiset{x}
  {
    if s == [] then [x]
    else if Rank(s[0]) >= Rank(x) then
      assert s == [s[0]] + s[1..];
      [s[0]] + InsertByRank(x, s[1..])
    else [x] + s
  }

  /** Insertion into a ranked sequence keeps it ranked. */
  lemma {:induction false} InsertKeepsRanked(x: RedditPost, s: seq<RedditPost>)
    requires RankedDesc(s)
    ensures RankedDesc(InsertByRank(x, s))
  {
    if s == [] {
      assert InsertByRank(x, s) == [x];
    } else if Rank(s[0]) >= Rank(x) {
      var rest := InsertByRank(x, s[1..]);
      InsertKeepsRanked(x, s[1..]);
      forall y | y in rest ensures Rank(s[0]) >= Rank(y) {
        assert y in multiset(rest);
        if y != x {
          assert y in multiset(s[1..]);
        }
      }
      ConsRanked(s[0], rest);
    } else {
      ConsRanked(x, s);
    }
  }

  /** A post ranked at least as high as every post of a ranked sequence can lead it. */
  lemma ConsRanked(h: RedditPost, rest: seq<RedditPost>)
    requires RankedDesc(rest)
    requires forall y :: y in rest ==> Rank(h) >= Rank(y)
    ensures RankedDesc([h] + rest)
  {
    var r := [h] + rest;
    forall i, j | 0 <= i < j < |r| ensures Rank(r[i]) >= Rank(r[j]) {
      if i > 0 {
        assert r[i] == rest[i - 1] && r[j] == rest[j - 1];
      } else {
        assert r[j] in rest;
      }
    }
  }

  /** `pool.sort(key=score * 2 + num_comments, reverse=True)`: Python's stable sort, best first. */
  function SortByRank(s: seq<RedditPost>): (r: seq<RedditPost>)
    ensures |r| == |s| && multiset(r) == multiset(s)
    ensures RankedDesc(r)
  {
    if s == [] then []
    else
      var init := s[..|s| - 1];
      assert s == init + [s[|s| - 1]];
      var sorted := SortByRank(init);
      InsertKeepsRanked(s[|s| - 1], sorted);
      InsertByRank(s[|s| - 1], sorted)
  }

  /** The posts of `s` whose rank is `v`, in their order in `s`. */
  function WithRank(s: seq<RedditPost>, v: int): seq<RedditPost> {
    if s == [] then []
    else (if Rank(s[0]) == v then [s[0]] else []) + WithRank(s[1..], v)
  }

  lemma {:induction false} WithRankAppend(a: seq<RedditPost>, b: seq<RedditPost>, v: int)
    ensures WithRank(a + b, v) == WithRank(a, v) + WithRank(b, v)
  {
    if a != [] {
      assert (a + b)[1..] == a[1..] + b;
      WithRankAppend(a[1..], b, v);
    } else {
      assert a + b == b;
    }
  }

  /** No post of a sequence ranked strictly below `v` has rank `v`. */
  lemma {:induction false} WithRankBelow(s: seq<RedditPost>, v: int)
    requires forall k :: 0 <= k < |s| ==> Rank(s[k]) < v
    ensures WithRank(s, v) == []
  {
    if s != [] {
      WithRankBelow(s[1..], v);
    }
  }

  /** The posts of rank `v` among `x` alone. */
  function RankTail(x: RedditPost, v: int): seq<RedditPost> {
    if Rank(x) == v then [x] else []
  }

  /** Inserting `x` into a ranked sequence puts it after every post of its own rank. */
  lemma {:induction false} InsertStable(x: RedditPost, t: seq<RedditPost>, v: int)
    requires RankedDesc(t)
    ensures WithRank(InsertByRank(x, t), v) == WithRank(t, v) + RankTail(x, v)
  {
    if t == [] {
      assert InsertByRank(x, t) == [x];
      assert WithRank([x], v) == RankTail(x, v) + WithRank([], v);
    } else if Rank(t[0]) >= Rank(x) {
      var rest := InsertByRank(x, t[1..]);
      assert InsertByRank(x, t) == [t[0]] + rest;
      InsertStable(x, t[1..], v);
      InsertBehind(x, t, rest, v);
    } else {
      assert InsertByRank(x, t) == [x] + t;
      InsertAhead(x, t, v);
    }
  }

  /** `x` goes after the head: the head's rank-`v` posts come first. */
  lemma InsertBehind(x: RedditPost, t: seq<RedditPost>, rest: seq<RedditPost>, v: int)
    requires t != []
    requires WithRank(rest, v) == WithRank(t[1..], v) + RankTail(x, v)
    ensures WithRank([t[0]] + rest, v) == WithRank(t, v) + RankTail(x, v)
  {
    WithRankAppend([t[0]], rest, v);
    assert t == [t[0]] + t[1..];
    WithRankAppend([t[0]], t[1..], v);
  }

  /** `x` goes ahead of a ranked sequence whose posts all rank below it. */
  lemma InsertAhead(x: RedditPost, t: seq<RedditPost>, v: int)
    requires RankedDesc(t) && t != [] && Rank(t[0]) < Rank(x)
    ensures WithRank([x] + t, v) == WithRank(t, v) + RankTail(x, v)
  {
    WithRankAppend([x], t, v);
    assert WithRank([x], v) == RankTail(x, v) + WithRank([], v);
    if Rank(x) == v {
      forall k | 0 <= k < |t| ensures Rank(t[k]) < v {
        assert k == 0 || Rank(t[0]) >= Rank(t[k]);
      }
      WithRankBelow(t, v);
    }
  }

  /** The sort is stable: for every rank, the posts of that rank keep their input order. */
  lemma {:induction false} SortByRankStable(s: seq<RedditPost>, v: int)
    ensures WithRank(SortByRank(s), v) == WithRank(s, v)
  {
    if s != [] {
      var init, last := s[..|s| - 1], s[|s| - 1];
      assert s == init + [last];
      SortByRankStable(init, v);
      InsertStable(last, SortByRank(init), v);
      WithRankAppend(init, [last], v);
    }
  }

  /** The posts `search` picks: the top of the ranked pool, shuffled, cut to the limit. */
  function Chosen(cfg: Settings, seen: SeenMap, all: seq<RedditPost>, limit: int, draws: seq<nat>): seq<RedditPost> {
    var ranked := SortByRank(Pool(Candidates(cfg, all), seen));
    Take(Shuffle(Take(ranked, TopWindow), draws), AtLeastOne(limit))
  }

  /** The summary kept for a post body: the body itself up to 1200 characters, otherwise
      its first 1200 characters followed by "...". */
  function Summarize(body: string): (r: string)
    ensures |r| <= SummaryMax + 3
    ensures |body| <= SummaryMax ==> r == body
    ensures |body| > SummaryMax ==> |r| == SummaryMax + 3 && r[..SummaryMax] == body[..SummaryMax] && r[SummaryMax..] == "..."
  {
    if |body| > SummaryMax then body[..SummaryMax] + "..." else body
  }

  /** The item built for one chosen post. */
  function ToItem(p: RedditPost): ContentItem {
    ContentItem(p.title, Summarize(Strip(p.selftext)), p.permalink, "reddit")
  }

  /** An item keeps the post's title, links to its permalink, is tagged "reddit", and
      carries at most 1203 characters of the stripped body. */
  lemma ItemOfPost(p: RedditPost)
    ensures ToItem(p).title == p.title && ToItem(p).link == p.permalink && ToItem(p).source == "reddit"
    ensures |ToItem(p).summary| <= SummaryMax + 3
    ensures |Strip(p.selftext)| <= SummaryMax ==> ToItem(p).summary == Strip(p.selftext)
    ensures |Strip(p.selftext)| > SummaryMax ==>
              Strip(p.selftext)[..SummaryMax] + "..." == ToItem(p).summary
  {
  }

  function Items(posts: seq<RedditPost>): (items: seq<ContentItem>)
    ensures |items| == |posts| && forall i :: 0 <= i < |posts| ==> items[i] == ToItem(posts[i])
  {
    MapSeq(posts, ToItem)
  }

  /** The whole of `search`: pruning errors propagate before anything is fetched; no posts at
      all returns an empty list without touching the seen file; otherwise the chosen posts are
      recorded at the second clock reading and returned as items. */
  function SearchResult(cfg: Settings, limit: int, file: StoreFile, fetched: seq<Fetch>,
                        pruneClock: int, recordClock: int, draws: seq<nat>): (r: Result<Outcome, PruneError>)
    ensures r.Err? <==> Prune(LoadSeen(file), pruneClock, cfg.seenTtlSec).Err?
    ensures r.Ok? && AllPosts(fetched) == [] ==> r.value == Outcome([], None)
  {
    match Prune(LoadSeen(file), pruneClock, cfg.seenTtlSec)
    case Err(e) => Err(e)
    case Ok(seen) =>
      var all := AllPosts(fetched);
      if all == [] then Ok(Outcome([], None))
      else
        var chosen := Chosen(cfg, seen, all, limit, draws);
        Ok(Outcome(Items(chosen), Some(Record(seen, Permalinks(chosen), recordClock))))
  }

  /** What a successful search saves: the pruned store with every chosen key stamped with the
      second clock reading and every other key unchanged; the answer is the chosen items. */
  lemma SearchRecordsChosen(cfg: Settings, limit: int, file: StoreFile, fetched: seq<Fetch>,
                            pruneClock: int, recordClock: int, draws: seq<nat>,
                            seen: SeenMap, chosen: seq<RedditPost>)
    requires Prune(LoadSeen(file), pruneClock, cfg.seenTtlSec) == Ok(seen)
    requires AllPosts(fetched) != [] && chosen == Chosen(cfg, seen, AllPosts(fetched), limit, draws)
    ensures var r := SearchResult(cfg, limit, file, fetched, pruneClock, recordClock, draws);
      var keys := Permalinks(chosen);
      && r.Ok?
      && r.value.items == Items(chosen)
      && r.value.saved.Some?
      && (forall k :: k in r.value.saved.value <==> k in seen || k in keys)
      && (forall k :: k in keys ==> r.value.saved.value[k] == recordClock)
      && (forall k :: k in seen && k !in keys ==> r.value.saved.value[k] == seen[k])
  {
    var saved := Record(seen, Permalinks(chosen), recordClock);
    assert SearchResult(cfg, limit, file, fetched, pruneClock, recordClock, draws) == Ok(Outcome(Items(chosen), Some(saved)));
  }

  /** The fetch loop: posts of every subreddit that did not raise, in order. */
  method GatherPosts(fetched: seq<Fetch>) returns (all: seq<RedditPost>)
    ensures all == AllPosts(fetched)
  {
    all := [];
    for i := 0 to |fetched|
      invariant all == AllPosts(fetched[..i])
    {
      assert fetched[..i + 1][..i] == fetched[..i];
      if fetched[i].Posts? {
        all := all + fetched[i].posts;
      }
    }
    assert fetched[..|fetched|] == fetched;
  }

  /** Steps 1 to 3 of `search`: filter, deduplicate, prefer unseen, rank, draw. */
  method Choose(cfg: Settings, seen: SeenMap, all: seq<RedditPost>, limit: int, draws: seq<nat>)
    returns (chosen: seq<RedditPost>)
    ensures chosen == Chosen(cfg, seen, all, limit, draws)
  {
    var n := AtLeastOne(limit);
    var filtered := FilterPosts(cfg, all);
    var candidates := DedupByPermalink(filtered);
    var unseen := Filter(candidates, (p: RedditPost) => p.permalink !in seen);
    assert unseen == Unseen(candidates, seen);
    var pool := if unseen != [] then unseen else candidates;
    pool := SortByRank(pool);
    var top := Take(pool, TopWindow);
    top := Shuffle(top, draws);
    chosen := Take(top, n);
  }

  /** The loop `seen[p.permalink] = now` over the chosen posts. */
  method RecordChosen(seen: SeenMap, chosen: seq<RedditPost>, now: int) returns (updated: SeenMap)
    ensures updated == Record(seen, Permalinks(chosen), now)
  {
    updated := seen;
    for i := 0 to |chosen|
      invariant updated == Record(seen, Permalinks(chosen[..i]), now)
    {
      assert Permalinks(chosen[..i + 1]) == Permalinks(chosen[..i]) + [chosen[i].permalink];
      RecordSnoc(seen, Permalinks(chosen[..i]), chosen[i].permalink, now);
      updated := updated[chosen[i].permalink := now];
    }
    assert chosen[..|chosen|] == chosen;
  }

  /** The loop building one item per chosen post. */
  method BuildItems(chosen: seq<RedditPost>) returns (items: seq<ContentItem>)
    ensures items == Items(chosen)
  {
    items := [];
    for i := 0 to |chosen|
      invariant items == Items(chosen[..i])
    {
      MapSeqSnoc(chosen, i, ToItem);
      var item := ToItem(chosen[i]);
      items := items + [item];
    }
    assert chosen[..|chosen|] == chosen;
  }

  /** `RedditProvider.search`, one fetch outcome per configured subreddit. */
  method Search(cfg: Settings, limit: int, file: StoreFile, fetched: seq<Fetch>,
                pruneClock: int, recordClock: int, draws: seq<nat>) returns (r: Result<Outcome, PruneError>)
    requires |fetched| == |cfg.subreddits|
    ensures r == SearchResult(cfg, limit, file, fetched, pruneClock, recordClock, draws)
  {
    var pruned := Prune(LoadSeen(file), pruneClock, cfg.seenTtlSec);
    if pruned.Err? {
      return Err(pruned.error);
    }
    var seen := pruned.value;
    var all := GatherPosts(fetched);
    if all == [] {
      return Ok(Outcome([], None));
    }
    var chosen := Choose(cfg, seen, all, limit, draws);
    var updated := RecordChosen(seen, chosen, recordClock);
    var items := BuildItems(chosen);
    r := Ok(Outcome(items, Some(updated)));
  }

  /** No permalink is chosen twice in one call. */
  lemma ChosenDistinct(cfg: Settings, seen: SeenMap, all: seq<RedditPost>, limit: int, draws: seq<nat>)
    ensures DistinctBy(Chosen(cfg, seen, all, limit, draws), PermalinkOf)
  {
    var cands := Candidates(cfg, all);
    FilterKeepsDistinct(cands, (p: RedditPost) => p.permalink !in seen, PermalinkOf);
    var pool := Pool(cands, seen);
    var ranked := SortByRank(pool);
    PermutationKeepsDistinct(pool, ranked, PermalinkOf);
    var top := Take(ranked, TopWindow);
    ShuffleKeepsDistinct(top, draws, PermalinkOf);
  }

  /** Every chosen post was fetched, passed the filter and came out of the pool. */
  lemma ChosenFromPool(cfg: Settings, seen: SeenMap, all: seq<RedditPost>, limit: int, draws: seq<nat>, p: RedditPost)
    requires p in Chosen(cfg, seen, all, limit, draws)
    ensures p in Pool(Candidates(cfg, all), seen)
    ensures p in all && Keeps(cfg, p)
    ensures p.permalink in Uniq(Filtered(cfg, all))
  {
    var pool := Pool(Candidates(cfg, all), seen);
    var ranked := SortByRank(pool);
    var top := Take(ranked, TopWindow);
    var shuffled := Shuffle(top, draws);
    assert p in shuffled;
    assert p in multiset(top);
    assert p in ranked;
    assert p in multiset(pool);
    assert p in Candidates(cfg, all);
    assert p in Filtered(cfg, all);
    var i :| 0 <= i < |Filtered(cfg, all)| && Filtered(cfg, all)[i] == p;
    assert Permalinks(Filtered(cfg, all))[i] == p.permalink;
  }

  /** While any candidate is unseen, only unseen posts are chosen. */
  lemma ChosenPrefersUnseen(cfg: Settings, seen: SeenMap, all: seq<RedditPost>, limit: int, draws: seq<nat>, q: RedditPost)
    requires q in Candidates(cfg, all) && q.permalink !in seen
    ensures forall p :: p in Chosen(cfg, seen, all, limit, draws) ==> p.permalink !in seen
  {
    var cands := Candidates(cfg, all);
    assert q in Unseen(cands, seen);
    forall p | p in Chosen(cfg, seen, all, limit, draws) ensures p.permalink !in seen {
      ChosenFromPool(cfg, seen, all, limit, draws, p);
    }
  }

  /** How many posts are chosen: the limit, capped by the top window and by the pool. */
  lemma ChosenCount(cfg: Settings, seen: SeenMap, all: seq<RedditPost>, limit: int, draws: seq<nat>)
    ensures var pool := Pool(Candidates(cfg, all), seen);
            var window := if |pool| < TopWindow then |pool| else TopWindow;
            |Chosen(cfg, seen, all, limit, draws)| == (if AtLeastOne(limit) < window then AtLeastOne(limit) else window)
    ensures Candidates(cfg, all) != [] <==> Chosen(cfg, seen, all, limit, draws) != []
  {
  }

  /** The draw only reaches the best-ranked posts: nothing ranked below the top window
      outranks a chosen post. */
  lemma ChosenFromTop(cfg: Settings, seen: SeenMap, all: seq<RedditPost>, limit: int, draws: seq<nat>, p: RedditPost, j: int)
    requires p in Chosen(cfg, seen, all, limit, draws)
    requires TopWindow <= j < |SortByRank(Pool(Candidates(cfg, all), seen))|
    ensures Rank(p) >= Rank(SortByRank(Pool(Candidates(cfg, all), seen))[j])
  {
    var ranked := SortByRank(Pool(Candidates(cfg, all), seen));
    var top := Take(ranked, TopWindow);
    assert p in multiset(Shuffle(top, draws));
    assert p in top;
    var i :| 0 <= i < |top| && top[i] == p;
    assert ranked[i] == p;
  }

  /** Across two calls: a permalink returned by one call is not returned by the next call
      made within the window, as long as that call has any candidate never recorded. */
  lemma {:induction false} NoRepeatWithinWindow(
    cfg: Settings, file: StoreFile,
    limit1: int, fetched1: seq<Fetch>, prune1: int, record1: int, draws1: seq<nat>,
    limit2: int, fetched2: seq<Fetch>, prune2: int, record2: int, draws2: seq<nat>,
    i: nat, q: RedditPost)
    requires SearchResult(cfg, limit1, file, fetched1, prune1, record1, draws1).Ok?
    requires i < |SearchResult(cfg, limit1, file, fetched1, prune1, record1, draws1).value.items|
    requires Within(prune2, record1, cfg.seenTtlSec)
    requires q in Candidates(cfg, AllPosts(fetched2))
    requires q.permalink !in SearchResult(cfg, limit1, file, fetched1, prune1, record1, draws1).value.saved.value
    ensures var first := SearchResult(cfg, limit1, file, fetched1, prune1, record1, draws1).value;
            var second := SearchResult(cfg, limit2, Saved(first.saved.value), fetched2, prune2, record2, draws2);
            second.Ok? && forall j :: 0 <= j < |second.value.items| ==> second.value.items[j].link != first.items[i].link
  {
    var seen1 := Prune(LoadSeen(file), prune1, cfg.seenTtlSec).value;
    var all1 := AllPosts(fetched1);
    var chosen1 := Chosen(cfg, seen1, all1, limit1, draws1);
    var m := Record(seen1, Permalinks(chosen1), record1);
    var k := chosen1[i].permalink;
    assert Permalinks(chosen1)[i] == k;
    RecordedStaysSeen(seen1, Permalinks(chosen1), record1, prune2, cfg.seenTtlSec, k);
    var seen2 := Prune(LoadSeen(Saved(m)), prune2, cfg.seenTtlSec).value;
    assert k in seen2;
    assert q.permalink !in seen2;
    var all2 := AllPosts(fetched2);
    assert q in Filtered(cfg, all2);
    ChosenPrefersUnseen(cfg, seen2, all2, limit2, draws2, q);
    var chosen2 := Chosen(cfg, seen2, all2, limit2, draws2);
    forall j | 0 <= j < |chosen2| ensures ToItem(chosen2[j]).link != k {
      assert chosen2[j] in chosen2;
    }
  }
}
