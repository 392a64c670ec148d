/** The text-source contract shared by every content provider (app/content/base.py). */
module ContentBase {
  import opened Wrappers
  import opened Freshness

  /** One piece of source text; immutable like the frozen dataclass it models. */
  datatype ContentItem = ContentItem(title: string, summary: string, link: string, source: string)

  /** `ContentItem(title, summary)`: link and source default to the empty string. */
  function MakeItem(title: string, summary: string): (c: ContentItem)
    ensures c.title == title && c.summary == summary
    ensures c.link == "" && c.source == ""
  {
    ContentItem(title, summary, "", "")
  }

  /** What a provider's `search` did: returned a list, or raised. */
  datatype SearchOutcome = Returned(items: seq<ContentItem>) | Raised

  /** Why `get_one` did not produce an item. */
  datatype GetOneError = SearchRaised | NoContent

  /** `get_one`: the first item of `search(query, limit=1)`; an empty list is a `RuntimeError`,
      and an exception from `search` propagates. */
  function GetOne(search: (string, int) -> SearchOutcome, query: string): (r: Result<ContentItem, GetOneError>)
    ensures r.Ok? <==> search(query, 1).Returned? && search(query, 1).items != []
    ensures r.Ok? ==> r.value == search(query, 1).items[0]
    ensures r == Err(SearchRaised) <==> search(query, 1).Raised?
  {
    match search(query, 1)
    case Raised => Err(SearchRaised)
    case Returned(items) => if items == [] then Err(NoContent) else Ok(items[0])
  }

  /** `max(1, int(limit))`: every search returns at least one item when it can. */
  function AtLeastOne(limit: int): (n: int)
    ensures n >= 1 && (limit >= 1 ==> n == limit)
  {
    if limit < 1 then 1 else limit
  }

  /** What one call of a source that keeps a seen store leaves behind: the items returned,
      and the map written back to the seen file (`None` when the call returned before saving). */
  datatype Outcome = Outcome(items: seq<ContentItem>, saved: Option<SeenMap>)
}
