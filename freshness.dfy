/** The "seen" store shared by the Reddit and Google News sources
    (app/content/reddit_provider.py:69-83, app/content/rss_google_provider.py:53-67):
    identity key (a permalink or a link) -> epoch seconds of the last time it was chosen.
    The file itself is an oracle: what `json.loads` made of it, or why it could not. */
module Freshness {
  import opened Wrappers

  /** The in-memory seen map once pruned: every value is an int. */
  type SeenMap = map<string, int>

  /** One value of the decoded JSON object, as Python's `int()` sees it:
      something `int()` accepts (an int, a float, a bool, a numeric string), or not. */
  datatype Stored = IntLike(n: int) | NotInt

  /** What `json.loads` produced: an object (a dict) or any other JSON value. */
  datatype Decoded = Object(entries: map<string, Stored>) | NonObject

  /** The seen file as the process finds it. */
  datatype StoreFile = Missing | Unparseable | Readable(json: Decoded)

  /** Why pruning raised: `.items()` on a non-dict, or `int(v)` on a value it rejects. */
  datatype PruneError = NotADict | ValueNotInt

  /** `_load_seen`: a missing or unparseable file reads as `{}`; nothing here raises. */
  function LoadSeen(f: StoreFile): (d: Decoded)
    ensures f.Readable? ==> d == f.json
    ensures !f.Readable? ==> d == Object(map[])
  {
    match f
    case Readable(json) => json
    case _ => Object(map[])
  }

  /** The freshness window: a record stamped at `t` still counts as seen at `now`. */
  predicate Within(now: int, t: int, ttl: int) {
    now - t < ttl
  }

  predicate AllIntLike(entries: map<string, Stored>) {
    forall k :: k in entries ==> entries[k].IntLike?
  }

  /** `_prune_seen`: keeps exactly the entries still inside the window, with their values
      coerced by `int()`; raises when the decoded value is not a dict or a value is not an int. */
  function Prune(d: Decoded, now: int, ttl: int): (r: Result<SeenMap, PruneError>)
    ensures r.Ok? <==> d.Object? && AllIntLike(d.entries)
    ensures r.Ok? ==> forall k :: k in r.value <==> k in d.entries && Within(now, d.entries[k].n, ttl)
    ensures r.Ok? ==> forall k :: k in r.value ==> r.value[k] == d.entries[k].n
  {
    match d
    case NonObject => Err(NotADict)
    case Object(entries) =>
      if exists k :: k in entries && entries[k].NotInt? then Err(ValueNotInt)
      else
        Ok(map k | k in entries && Within(now, entries[k].n, ttl) :: entries[k].n)
  }

  /** After pruning, every retained record is inside the window. */
  lemma PruneKeepsWindow(d: Decoded, now: int, ttl: int)
    requires Prune(d, now, ttl).Ok?
    ensures forall k :: k in Prune(d, now, ttl).value ==> Within(now, Prune(d, now, ttl).value[k], ttl)
  {
  }

  /** `seen[key] = now` for every chosen key, in order. */
  function Record(seen: SeenMap, keys: seq<string>, now: int): (r: SeenMap)
    ensures r.Keys == seen.Keys + set k | k in keys
    ensures forall k :: k in keys ==> r[k] == now
    ensures forall k :: k in seen && k !in keys ==> r[k] == seen[k]
  {
    seen + map k | k in keys :: now
  }

  /** A missing seen file prunes to the empty map. */
  lemma PruneMissing(now: int, ttl: int)
    ensures Prune(LoadSeen(Missing), now, ttl) == Ok(map[])
  {
    var r := Prune(Object(map[]), now, ttl);
    assert r.Ok?;
    assert r.value.Keys == {};
  }

  /** Recording keys one at a time is recording them all at once. */
  lemma RecordSnoc(seen: SeenMap, keys: seq<string>, k: string, now: int)
    ensures Record(seen, keys, now)[k := now] == Record(seen, keys + [k], now)
  {
  }

  /** `_save_seen` writes the map as a JSON object of integers. */
  function Saved(m: SeenMap): (f: StoreFile)
    ensures f.Readable? && f.json.Object? && f.json.entries.Keys == m.Keys
  {
    Readable(Object(map k | k in m :: IntLike(m[k])))
  }

  /** Saving a map and loading it back gives the same map, as long as pruning keeps every record. */
  lemma SaveLoadRoundTrip(m: SeenMap, now: int, ttl: int)
    requires forall k :: k in m ==> Within(now, m[k], ttl)
    ensures Prune(LoadSeen(Saved(m)), now, ttl) == Ok(m)
  {
    var r := Prune(LoadSeen(Saved(m)), now, ttl);
    assert r.Ok?;
    assert r.value == m;
  }

  /** A key recorded at `stamp` survives the next load-and-prune exactly while the
      window has not elapsed. */
  lemma {:induction false} RecordedStaysSeen(seen: SeenMap, keys: seq<string>, stamp: int, now: int, ttl: int, k: string)
    requires k in keys
    ensures Prune(LoadSeen(Saved(Record(seen, keys, stamp))), now, ttl).Ok?
    ensures k in Prune(LoadSeen(Saved(Record(seen, keys, stamp))), now, ttl).value <==> Within(now, stamp, ttl)
  {
    var m := Record(seen, keys, stamp);
    assert k in m && m[k] == stamp;
    var d := LoadSeen(Saved(m));
    assert d.Object? && AllIntLike(d.entries);
    assert d.entries[k] == IntLike(stamp);
  }
}
