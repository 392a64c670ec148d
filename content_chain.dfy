/** The content fallback chain (app/content/aggregator.py): providers are tried in priority
    order and the first non-empty answer wins; a provider that raises is skipped. What each
    provider answers is a parameter. */
module ContentChain {
  import opened Wrappers
  import opened ContentBase

  /** The content sources the registry knows. */
  datatype SourceKind = GoogleNewsSource | BbcSource | NaverSource | RedditSource

  /** `CONTENT_PROVIDER_PRIORITY` in config/settings.py. */
  const SettingsPriority: seq<string> := ["rss_google"]

  /** The registry: a priority key names a source, or nothing. */
  function KindOf(key: string): (k: Option<SourceKind>)
    ensures k == Some(GoogleNewsSource) <==> key == "rss_google"
    ensures k == Some(BbcSource) <==> key == "rss_bbc"
    ensures k == Some(NaverSource) <==> key == "rss_naver"
    ensures k == Some(RedditSource) <==> key == "reddit"
  {
    if key == "rss_google" then Some(GoogleNewsSource)
    else if key == "rss_bbc" then Some(BbcSource)
    else if key == "rss_naver" then Some(NaverSource)
    else if key == "reddit" then Some(RedditSource)
    else None
  }

  /** The sources the known keys name, in priority order, repeats kept. */
  function KnownKinds(priority: seq<string>): (kinds: seq<SourceKind>)
    ensures |kinds| <= |priority|
  {
    if priority == [] then []
    else
      var k := KindOf(priority[|priority| - 1]);
      KnownKinds(priority[..|priority| - 1]) + (if k.Some? then [k.value] else [])
  }

  /** `_build_from_settings`'s result: the known sources, or Google News alone when none is known. */
  function FromSettings(priority: Option<seq<string>>): seq<SourceKind> {
    var keys := if priority.Some? then priority.value else ["rss_google"];
    var kinds := KnownKinds(keys);
    if kinds == [] then [GoogleNewsSource] else kinds
  }

  /** `_build_from_settings`. */
  method BuildFromSettings(priority: Option<seq<string>>) returns (out: seq<SourceKind>)
    ensures out == FromSettings(priority)
  {
    var keys := if priority.Some? then priority.value else ["rss_google"];
    out := [];
    for i := 0 to |keys|
      invariant out == KnownKinds(keys[..i])
    {
      assert keys[..i + 1][..i] == keys[..i];
      var key := keys[i];
      if key == "rss_google" {
        out := out + [GoogleNewsSource];
      } else if key == "rss_bbc" {
        out := out + [BbcSource];
      } else if key == "rss_naver" {
        out := out + [NaverSource];
      } else if key == "reddit" {
        out := out + [RedditSource];
      }
    }
    assert keys[..|keys|] == keys;
    if out == [] {
      out := [GoogleNewsSource];
    }
  }

  /** A source appears in the built chain exactly when a priority key names it, except that
      Google News stands in when no key is known. */
  lemma {:induction false} KnownKindsMembers(priority: seq<string>, k: SourceKind)
    ensures k in KnownKinds(priority) <==> exists i :: 0 <= i < |priority| && KindOf(priority[i]) == Some(k)
  {
    if priority != [] {
      var n := |priority| - 1;
      var init, last := priority[..n], KindOf(priority[n]);
      KnownKindsMembers(init, k);
      var tail := if last.Some? then [last.value] else [];
      assert KnownKinds(priority) == KnownKinds(init) + tail;
      assert k in tail <==> last == Some(k);
      if k in KnownKinds(init) {
        var i :| 0 <= i < |init| && KindOf(init[i]) == Some(k);
        assert priority[i] == init[i];
      }
      if exists i :: 0 <= i < |priority| && KindOf(priority[i]) == Some(k) {
        var i :| 0 <= i < |priority| && KindOf(priority[i]) == Some(k);
        if i < n {
          assert init[i] == priority[i];
        }
      }
    }
  }

  /** The chain built from settings is never empty, and with the shipped settings it is
      Google News alone. */
  lemma SettingsChainShape(priority: Option<seq<string>>)
    ensures FromSettings(priority) != []
    ensures FromSettings(None) == [GoogleNewsSource]
    ensures FromSettings(Some(SettingsPriority)) == [GoogleNewsSource]
  {
    assert ["rss_google"][..0] == [];
  }

  /** `__init__`: a supplied provider list is used as given, even when empty. */
  function NewChain(providers: Option<seq<SourceKind>>, priority: Option<seq<string>>): (chain: seq<SourceKind>)
    ensures providers.Some? ==> chain == providers.value
    ensures providers.None? ==> chain != [] && chain == FromSettings(priority)
  {
    if providers.Some? then providers.value else FromSettings(priority)
  }

  /** The answer of the chain when provider `i` answers `outcomes[i]`: the first non-empty list. */
  function FirstNonEmpty(outcomes: seq<SearchOutcome>): (items: seq<ContentItem>)
    ensures items == [] <==> forall i :: 0 <= i < |outcomes| ==> outcomes[i].Raised? || outcomes[i].items == []
  {
    if outcomes == [] then []
    else if outcomes[0].Returned? && outcomes[0].items != [] then outcomes[0].items
    else
      var rest := FirstNonEmpty(outcomes[1..]);
      assert forall i :: 1 <= i < |outcomes| ==> outcomes[i] == outcomes[1..][i - 1];
      rest
  }

  /** `ContentAggregator.search`. Besides the items, reports how many providers were called. */
  method Search(outcomes: seq<SearchOutcome>) returns (items: seq<ContentItem>, called: nat)
    ensures items == FirstNonEmpty(outcomes)
    ensures called <= |outcomes|
    ensures items != [] ==> called >= 1 && outcomes[called - 1] == Returned(items)
    ensures items == [] ==> called == |outcomes|
    ensures forall i :: 0 <= i < called - 1 ==> outcomes[i].Raised? || outcomes[i].items == []
  {
    called := 0;
    while called < |outcomes|
      invariant called <= |outcomes|
      invariant forall i :: 0 <= i < called ==> outcomes[i].Raised? || outcomes[i].items == []
      invariant FirstNonEmpty(outcomes[called..]) == FirstNonEmpty(outcomes)
    {
      var o := outcomes[called];
      called := called + 1;
      if o.Returned? && o.items != [] {
        return o.items, called;
      }
      assert outcomes[called - 1..][1..] == outcomes[called..];
    }
    return [], called;
  }

  /** The chain answers with some provider's list, taken unchanged: the first one that is
      non-empty, all before it having failed or come back empty. */
  lemma {:induction false} FirstNonEmptyIsFirst(outcomes: seq<SearchOutcome>)
    requires FirstNonEmpty(outcomes) != []
    ensures exists k :: 0 <= k < |outcomes| && outcomes[k] == Returned(FirstNonEmpty(outcomes))
             && forall i :: 0 <= i < k ==> outcomes[i].Raised? || outcomes[i].items == []
  {
    if !(outcomes[0].Returned? && outcomes[0].items != []) {
      FirstNonEmptyIsFirst(outcomes[1..]);
      var k :| 0 <= k < |outcomes[1..]| && outcomes[1..][k] == Returned(FirstNonEmpty(outcomes[1..]))
             && forall i :: 0 <= i < k ==> outcomes[1..][i].Raised? || outcomes[1..][i].items == [];
      assert outcomes[k + 1] == outcomes[1..][k];
      assert forall i :: 1 <= i < k + 1 ==> outcomes[i] == outcomes[1..][i - 1];
    }
  }

  /** `ContentAggregator.get_one`, given what each provider answers for `limit=1`: the first
      item of the first non-empty answer. */
  function GetOne(outcomes: seq<SearchOutcome>): (r: Result<ContentItem, GetOneError>)
    ensures r.Ok? <==> exists i :: 0 <= i < |outcomes| && outcomes[i].Returned? && outcomes[i].items != []
    ensures r.Ok? ==> r.value == FirstNonEmpty(outcomes)[0]
    ensures r.Ok? ==> exists k :: 0 <= k < |outcomes| && outcomes[k].Returned? && outcomes[k].items != []
                        && r.value == outcomes[k].items[0]
                        && forall i :: 0 <= i < k ==> outcomes[i].Raised? || outcomes[i].items == []
    ensures r.Err? ==> r.error == NoContent
  {
    var items := FirstNonEmpty(outcomes);
    if items == [] then Err(NoContent)
    else
      FirstNonEmptyIsFirst(outcomes);
      Ok(items[0])
  }
}
