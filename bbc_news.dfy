/** The BBC RSS source (app/content/rss_bbc_provider.py): the feed's entries are filtered by a
    case-insensitive substring match of the query against title or summary, and the first
    matches, up to the limit, are returned. The parsed feed is a parameter. */
module BbcNews {
  import opened PyStr
  import opened ContentBase

  /** One feed entry; a missing field reads as "". */
  datatype Entry = Entry(title: string, summary: string, link: string)

  const DefaultFeedUrl: string := "https://feeds.bbci.co.uk/news/rss.xml"

  /** An entry is kept when the lower-cased query is empty or occurs in its lower-cased
      title or summary. */
  predicate Matches(q: string, e: Entry) {
    q == [] || Contains(Lower(e.title), q) || Contains(Lower(e.summary), q)
  }

  function ToItem(e: Entry): ContentItem {
    ContentItem(e.title, e.summary, e.link, "rss_bbc")
  }

  /** Every match, in feed order, as items. */
  function MatchItems(q: string, entries: seq<Entry>): (items: seq<ContentItem>)
    ensures |items| <= |entries|
  {
    if entries == [] then []
    else
      var e := entries[|entries| - 1];
      MatchItems(q, entries[..|entries| - 1]) + (if Matches(q, e) then [ToItem(e)] else [])
  }

  /** Looking further into the feed only adds matches at the end. */
  lemma {:induction false} MatchItemsGrow(q: string, a: seq<Entry>, b: seq<Entry>)
    ensures MatchItems(q, a) <= MatchItems(q, a + b)
    decreases |b|
  {
    if b == [] {
      assert a + b == a;
    } else {
      var init := b[..|b| - 1];
      assert (a + b)[..|a + b| - 1] == a + init;
      MatchItemsGrow(q, a, init);
    }
  }

  /** An item is matched exactly when some entry matching the query produced it. */
  lemma {:induction false} MatchItemsMembers(q: string, entries: seq<Entry>, c: ContentItem)
    ensures c in MatchItems(q, entries) <==> exists e :: e in entries && Matches(q, e) && c == ToItem(e)
  {
    if entries != [] {
      var init := entries[..|entries| - 1];
      assert entries == init + [entries[|entries| - 1]];
      MatchItemsMembers(q, init, c);
      if c in MatchItems(q, init) {
        var e :| e in init && Matches(q, e) && c == ToItem(e);
        assert e in entries;
      }
    }
  }

  /** What `search` returns: the first `max(1, limit)` matches. */
  function SearchResult(query: string, limit: int, entries: seq<Entry>): seq<ContentItem> {
    Take(MatchItems(Lower(query), entries), AtLeastOne(limit))
  }

  /** `BBCNewsRSSProvider.search`, given the parsed feed's entries. */
  method Search(query: string, limit: int, entries: seq<Entry>) returns (out: seq<ContentItem>)
    ensures out == SearchResult(query, limit, entries)
  {
    if entries == [] {
      return [];
    }
    var q := Lower(query);
    var n := AtLeastOne(limit);
    out := [];
    var i := 0;
    while i < |entries|
      invariant 0 <= i <= |entries|
      invariant out == MatchItems(q, entries[..i]) && |out| < n
    {
      MatchItemsSnoc(q, entries, i);
      var e := entries[i];
      if !Matches(q, e) {
        i := i + 1;
        continue;
      }
      out := out + [ToItem(e)];
      if |out| >= n {
        LimitReached(q, entries, i + 1, n);
        return;
      }
      i := i + 1;
    }
    assert entries[..i] == entries;
  }

  /** Matching one more entry appends its item when it matches. */
  lemma MatchItemsSnoc(q: string, entries: seq<Entry>, i: nat)
    requires i < |entries|
    ensures MatchItems(q, entries[..i + 1])
         == MatchItems(q, entries[..i]) + (if Matches(q, entries[i]) then [ToItem(entries[i])] else [])
  {
    assert entries[..i + 1][..i] == entries[..i];
  }

  /** Once a prefix of the feed has produced `n` matches, the first `n` matches are those. */
  lemma LimitReached(q: string, entries: seq<Entry>, i: nat, n: nat)
    requires i <= |entries| && |MatchItems(q, entries[..i])| == n
    ensures Take(MatchItems(q, entries), n) == MatchItems(q, entries[..i])
  {
    MatchItemsGrow(q, entries[..i], entries[i..]);
    assert entries[..i] + entries[i..] == entries;
  }

  /** Every returned item comes from an entry the query matches, and there are at most
      `max(1, limit)` of them. */
  lemma ResultMatches(query: string, limit: int, entries: seq<Entry>, c: ContentItem)
    requires c in SearchResult(query, limit, entries)
    ensures exists e :: e in entries && Matches(Lower(query), e) && c == ToItem(e)
    ensures |SearchResult(query, limit, entries)| <= AtLeastOne(limit)
  {
    MatchItemsMembers(Lower(query), entries, c);
  }

  /** The result is the beginning of the full match list: no earlier match is skipped, and
      fewer items than the limit means every match was returned. */
  lemma ResultIsFirstMatches(query: string, limit: int, entries: seq<Entry>)
    ensures SearchResult(query, limit, entries) <= MatchItems(Lower(query), entries)
    ensures |SearchResult(query, limit, entries)| < AtLeastOne(limit) ==>
              SearchResult(query, limit, entries) == MatchItems(Lower(query), entries)
  {
  }

  /** An empty query matches everything: the first entries are returned as they are. */
  lemma {:induction false} EmptyQueryMatchesAll(entries: seq<Entry>)
    ensures |MatchItems("", entries)| == |entries|
    ensures forall i :: 0 <= i < |entries| ==> MatchItems("", entries)[i] == ToItem(entries[i])
  {
    if entries != [] {
      EmptyQueryMatchesAll(entries[..|entries| - 1]);
    }
  }
}
