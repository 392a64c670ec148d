/** The Naver News source (app/content/rss_naver_provider.py), a placeholder that never finds anything. */
module NaverNews {
  import opened ContentBase

  /** `NaverNewsRSSProvider.search`: always an empty list. */
  function Search(query: string, limit: int): (items: seq<ContentItem>)
    ensures |items| == 0
  {
    []
  }
}
