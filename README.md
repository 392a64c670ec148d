# auto-youtube core, modelled in Dafny

This project models the decision-making core of auto-youtube, the tool that turns fresh
news, Reddit posts or an AI-written daily quote into a short vertical video. Nothing here
renders, downloads or calls an AI: those are parameters (oracles) of the model. What is
modelled, and proved, is the logic that decides what content, which images, what text and
which timings the video gets.

- `Wrappers`, `PyStr`, `Seqs`: Option/Result, the Python string operations the core
  relies on (`strip`, `split`, `join`, slicing, ASCII `lower`/`upper`, `isdigit`), and
  sequence helpers, including `random.shuffle` as Fisher–Yates over a stream of draws.
- `Freshness`: the seen-store of the Reddit and Google News providers. It loads the JSON file, prunes
  entries older than the freshness window and records newly used keys with the current
  time.
- `ContentBase`, `Reddit`, `GoogleNews`, `BbcNews`, `NaverNews`: the content providers.
  Each filters its candidate items and builds the `ContentItem`s it returns. Reddit and
  Google News also keep a seen-store: they prefer items not seen within the window, pick
  some at random and record the picked keys. BBC keeps the entries matching the query, in
  feed order; Naver is a placeholder that always returns nothing.
- `ContentChain`: the content fallback chain. The first provider that gives an item wins,
  and a raising provider counts as giving nothing.
- `ImageChain`: the image fallback chain (both aggregator variants). It tries providers in
  priority order with the one query, and the first provider whose URLs yield anything
  wins; its URLs are downloaded into the run's image folder when there is one. When no
  provider yields anything, fixed placeholders are returned.
- `QuotePayload`: validates and normalises the daily-quote JSON (`video_title`,
  `quote_lines`, `typing_units`, `tags`) into a value or an error message. `QuoteRetry` is the retry loop that
  feeds each error back into the next prompt and gives up after the attempt budget.
- `StageDirections`: `clean_stage_directions`, which drops bracketed or parenthesised
  stage directions whose inner text names a keyword, and drops lines that become blank.
- `SubtitleSplit`: `split_text`, which cuts a script into subtitle-sized pieces.
- `Wrap`: greedy word wrapping against a width function, and truncation to a line budget
  with "…".
- `Slideshow`: the slideshow plans: the image list with its placeholder, the number of
  slides, the cycle over the images, the clip loop with its per-URL cache, and the subtitle
  segments.
  `TypingEffect`: the typing-effect frame plan.
- `PipelineLoader`: the pipeline registry and class-name derivation. `RunContext`: the
  run directory, numbered by the next free run index. `ConfigLoader`: the typed getters
  over the environment map (`get_env`, `get_bool`, `get_int`) and the `Config` class body
  (`LoadConfig`).

The Python source mixes styles. Where it builds results with loops, the model has a method
with loop invariants whose `ensures` ties it to a specification function. Lemmas then state
the properties the source promises about that function.

## Model

| member | source | states |
|---|---|---|
| Freshness.LoadSeen | app/content/reddit_provider.py:69-75 | a readable file gives what was decoded; a missing or unparseable file gives an empty object; no case raises |
| Freshness.Prune | app/content/reddit_provider.py:81-83 | succeeds exactly on an object whose values `int()` accepts; keeps exactly the keys with `now - v < ttl`, each value coerced to int; adds nothing |
| Freshness.Record | app/content/reddit_provider.py:174-176 | every chosen key maps to the one `now`; every other key keeps its value; no key is lost |
| Freshness.RecordSnoc | app/content/reddit_provider.py:175-176 | assigning the keys one at a time in a loop is the same as recording them all at once |
| Freshness.SaveLoadRoundTrip | app/content/reddit_provider.py:69-83 | a map written by `_save_seen` whose records are all inside the window comes back unchanged from load and prune |
| Freshness.RecordedStaysSeen | app/content/rss_google_provider.py:53-67 | a key recorded at `stamp` is in the next pruned map exactly while `now - stamp < ttl` |
| ContentBase.MakeItem | app/content/base.py:8-13 | an item built from a title and a summary has link and source `""` |
| ContentBase.GetOne | app/content/base.py:33-37 | calls `search` with `limit=1`; succeeds iff that returns items, and then gives the first one; an empty list is the `RuntimeError` case and an exception from `search` propagates |
| ContentBase.AtLeastOne | app/content/reddit_provider.py:138 | `max(1, limit)`: at least 1, and the limit itself when that is positive |
| NaverNews.Search | app/content/rss_naver_provider.py:16-18 | always the empty list |
| BbcNews.MatchItemsGrow | app/content/rss_bbc_provider.py:32-44 | reading further into the feed only appends matches: the matches of a prefix are a prefix of the matches of the whole |
| BbcNews.MatchItemsMembers | app/content/rss_bbc_provider.py:30-43 | an item is among the matches iff some entry whose lowered title or summary contains the lowered query (or the query is empty) produced it, with source `"rss_bbc"` |
| BbcNews.Search | app/content/rss_bbc_provider.py:24-48 | no entries gives `[]`; the loop, with its `continue` and early `break`, returns exactly the first `max(1, limit)` matches in feed order |
| BbcNews.ResultMatches | app/content/rss_bbc_provider.py:30-46 | every returned item comes from a matching entry, and there are at most `max(1, limit)` of them |
| BbcNews.ResultIsFirstMatches | app/content/rss_bbc_provider.py:32-46 | the result is a prefix of all matches, and all of them when fewer than the limit |
| BbcNews.EmptyQueryMatchesAll | app/content/rss_bbc_provider.py:30-35 | an empty query matches every entry, each producing its own item in order |
| Reddit.NewSettings | app/content/reddit_provider.py:37-57 | no subreddits (or an empty list) selects the three defaults; `fetch_limit` is at least 10 and kept when it already is; the other settings are kept as given |
| Reddit.DefaultSettings | app/content/reddit_provider.py:41-51 | the defaults: the three subreddits, fetch limit 30, a one-week window, minimum body 200, no NSFW |
| Reddit.AllPosts | app/content/reddit_provider.py:141-147 | a post is gathered iff some subreddit fetch that did not raise returned it |
| Reddit.GatherPosts | app/content/reddit_provider.py:141-147 | the fetch loop, skipping the fetches that raised, gathers exactly `AllPosts` |
| Reddit.FilterPosts | app/content/reddit_provider.py:124-135 | the filter loop returns exactly the posts that pass the test, in their original order |
| Reddit.FilteredMembers | app/content/reddit_provider.py:124-135 | a post survives iff it was fetched and `(allow_nsfw or not is_nsfw)` and its stripped body has at least `min_text_len` characters |
| Reddit.FirstKeys | app/content/reddit_provider.py:158-161 | the dict's keys in insertion order are pairwise distinct and are exactly the permalinks fetched |
| Reddit.Uniq | app/content/reddit_provider.py:158-160 | the dict maps every fetched permalink, and only those, to a fetched post carrying it |
| Reddit.Dedup | app/content/reddit_provider.py:161 | one post per permalink, in order of first occurrence, pairwise distinct by permalink |
| Reddit.UniqLastWins | app/content/reddit_provider.py:159-160 | the post kept for a permalink is the last fetched post carrying it |
| Reddit.DedupCovers | app/content/reddit_provider.py:158-161 | every permalink that survived the filter is represented after deduplication |
| Reddit.DedupByPermalink | app/content/reddit_provider.py:158-161 | the dict-overwriting loop and `list(uniq.values())` compute exactly `Dedup` |
| Reddit.ValuesInOrder | app/content/reddit_provider.py:161 | `list(uniq.values())` lists the stored post of each key in first-insertion order |
| Reddit.InsertKeepsRanked | app/content/reddit_provider.py:167 | inserting a post after every post ranked at least as high keeps the sequence ranked best first |
| Reddit.SortByRank | app/content/reddit_provider.py:167 | a permutation of the pool, ranked by `score*2 + num_comments`, best first |
| Reddit.InsertStable | app/content/reddit_provider.py:167 | inserting a post into a ranked sequence places it after every post of its own rank, leaving the others of that rank in order |
| Reddit.SortByRankStable | app/content/reddit_provider.py:167 | the sort is stable, as Python's `list.sort` is with `reverse=True`: for every rank, the posts of that rank keep their order in the pool |
| Reddit.Summarize | app/content/reddit_provider.py:182-184 | a body of at most 1200 characters is kept; a longer one becomes its first 1200 characters and `"..."` |
| Reddit.ItemOfPost | app/content/reddit_provider.py:182-192 | an item has the post's title, the permalink as link, source `"reddit"`, and the stripped body cut as above |
| Reddit.Items | app/content/reddit_provider.py:179-193 | one item per chosen post, in order |
| Reddit.BuildItems | app/content/reddit_provider.py:179-193 | the item loop builds exactly `Items` |
| Reddit.SearchResult | app/content/reddit_provider.py:137-202 | a pruning error propagates; no post at all returns `[]` without saving; otherwise the seen map is saved |
| Reddit.SearchRecordsChosen | app/content/reddit_provider.py:139-177 | with posts fetched and the store pruned, the search succeeds with the chosen posts as items and saves the pruned store with every chosen permalink stamped with the second clock reading and every other key unchanged |
| Reddit.Choose | app/content/reddit_provider.py:154-171 | filter, dedup, pool, sort, top 15, shuffle and slice compute exactly `Chosen` |
| Reddit.RecordChosen | app/content/reddit_provider.py:174-176 | the loop `seen[p.permalink] = now` computes exactly `Record` over the chosen permalinks |
| Reddit.Search | app/content/reddit_provider.py:137-202 | the method computes exactly `SearchResult` |
| Reddit.ChosenDistinct | app/content/reddit_provider.py:158-171 | no permalink is chosen twice in one call |
| Reddit.ChosenFromPool | app/content/reddit_provider.py:154-171 | every chosen post was fetched, passed the filter, and came out of the pool |
| Reddit.ChosenPrefersUnseen | app/content/reddit_provider.py:163-164 | while any candidate is unseen, every chosen post is unseen |
| Reddit.ChosenCount | app/content/reddit_provider.py:137-171 | the number chosen is `min(max(1, limit), 15, len(pool))`, and none only when there is no candidate |
| Reddit.ChosenFromTop | app/content/reddit_provider.py:167-171 | no post ranked below the top-15 window outranks a chosen post |
| Reddit.NoRepeatWithinWindow | app/content/reddit_provider.py:137-177 | a permalink returned by one call is not returned by a later call within the window while that call has a never-recorded candidate |
| Seqs.Shuffle | app/content/reddit_provider.py:169 | `random.shuffle` yields a permutation of the list, whatever the generator draws |
| Seqs.ShuffleKeepsDistinct | app/content/reddit_provider.py:169 | the Fisher–Yates shuffle is a permutation: elements distinct by a key stay distinct |
| GoogleNews.NewSettings | app/content/rss_google_provider.py:24-39 | `fetch_limit` is at least 5 and kept when it already is; the window is kept |
| GoogleNews.DefaultSettings | app/content/rss_google_provider.py:30-31 | the defaults: fetch limit 40, a one-day window |
| GoogleNews.CandidatesAreUsableEntries | app/content/rss_google_provider.py:83-99 | a candidate is exactly an entry with non-empty title and link, tagged `"rss_google"` |
| GoogleNews.BuildCandidates | app/content/rss_google_provider.py:83-99 | the loop over `entries[:fetch_limit]`, skipping unusable entries, builds exactly the candidates of that prefix in feed order |
| GoogleNews.UnseenWhenNothingSeen | app/content/rss_google_provider.py:107 | with nothing seen every candidate is fresh |
| GoogleNews.SearchResult | app/content/rss_google_provider.py:69-129 | no entry or no usable candidate returns `[]` without reading or writing the seen file; otherwise a pruning error propagates |
| GoogleNews.SearchRecordsChosen | app/content/rss_google_provider.py:105-129 | with a usable candidate and the store pruned, the search succeeds with the chosen items and saves the pruned store with every chosen link stamped with the second clock reading and every other key unchanged |
| GoogleNews.Search | app/content/rss_google_provider.py:69-129 | the method computes exactly `SearchResult` |
| GoogleNews.RecordChosen | app/content/rss_google_provider.py:117-120 | the loop `seen[c.link] = now` computes exactly `Record` over the chosen links |
| GoogleNews.ChosenCount | app/content/rss_google_provider.py:71-114 | the number chosen is `min(max(1, limit), len(pool))`, and none only when there is no candidate |
| GoogleNews.ChosenFromPool | app/content/rss_google_provider.py:106-114 | every chosen item is a candidate, and while any candidate is fresh every chosen item is fresh |
| GoogleNews.DuplicateLinksCanBeChosen | app/content/rss_google_provider.py:106-114 | with no dedup step, two entries sharing a link are both chosen by a call with limit 2 |
| GoogleNews.NoRepeatWithinWindow | app/content/rss_google_provider.py:106-120 | a link returned by one call is not returned by a later call within the window while that call has a never-recorded candidate |
| ContentChain.KindOf | app/content/aggregator.py:42-50 | each of the four priority keys names its own source, and no other key names one |
| ContentChain.KnownKinds | app/content/aggregator.py:42-50 | the sources of the known keys, never more than there are keys |
| ContentChain.BuildFromSettings | app/content/aggregator.py:38-55 | the loop over the priority list builds exactly `FromSettings` |
| ContentChain.KnownKindsMembers | app/content/aggregator.py:42-50 | a source is in the built list exactly when some priority key names it |
| ContentChain.SettingsChainShape | app/content/aggregator.py:38-55 | the chain built from settings is never empty; with the setting absent or as shipped (`["rss_google"]`) it is Google News alone |
| ContentChain.NewChain | app/content/aggregator.py:20-26 | a supplied list is used as given; otherwise the non-empty chain from settings |
| ContentChain.FirstNonEmpty | app/content/aggregator.py:57-69 | the answer is empty exactly when every provider raised or answered empty |
| ContentChain.Search | app/content/aggregator.py:57-69 | the loop answers `FirstNonEmpty`, stops at the first provider with items (returning them unchanged) and calls every provider when none has any |
| ContentChain.FirstNonEmptyIsFirst | app/content/aggregator.py:59-65 | a non-empty answer is some provider's list, and every provider before it raised or answered empty |
| ContentChain.GetOne | app/content/aggregator.py:71-75 | an item exactly when some provider answers a non-empty list, and then the first item of the first non-empty answer, every provider before it having raised or answered empty; otherwise the "no content" error |
| ImageChain.SourceOf | app/images/aggregator.py:26-32 | each of the three priority keys names its own provider, and no other key names one |
| ImageChain.KnownSources | app/images/aggregator.py:26-32 | the providers of the known keys, never more than there are keys |
| ImageChain.Registry | app/images/aggregator.py:26-35 | the registry is never empty |
| ImageChain.BuildRegistry | app/images/aggregator.py:24-35 | the registration loop builds exactly `Registry` |
| ImageChain.KeyedSources | app/search/aggregator.py:20-26 | the key-gated providers, never more than there are keys |
| ImageChain.KeyGatedRegistry | app/search/aggregator.py:17-30 | the key-gated registry is never empty: Pexels is added even without its key |
| ImageChain.BuildKeyGatedRegistry | app/search/aggregator.py:17-30 | the key-gated registration loop builds exactly `KeyGatedRegistry` |
| ImageChain.KeyedIsKnownWithKey | app/search/aggregator.py:20-26 | the key gate only filters: the gated providers are the known ones whose API key is set, in order |
| ImageChain.AllKeysSetSameRegistry | app/search/aggregator.py:20-30 | with every API key set the two variants register the same providers |
| ImageChain.DefaultImages | app/images/aggregator.py:75-82 | the placeholders are a prefix of the four defaults, `min(count, 4)` of them for a non-negative count |
| ImageChain.BatchFrom | app/images/aggregator.py:55-65 | the URL loop only appends to `saved_paths` |
| ImageChain.SearchImages | app/images/aggregator.py:43-73 | the provider loop, in both variants, returns exactly `SearchResult` |
| ImageChain.DownloadBatch | app/images/aggregator.py:55-64 | the URL loop of one provider leaves `saved_paths` and the raised flag exactly as `BatchFrom` says |
| ImageChain.ChainBounded | app/images/aggregator.py:67-73 | for a positive count the answer has between 1 and `count` entries |
| ImageChain.BatchWithoutRunDir | app/images/aggregator.py:64-65 | without a run folder a batch keeps every URL, in order, and never raises |
| ImageChain.ChainWithoutRunDir | app/search/aggregator.py:61-85 | without a run folder the answer is the first non-empty URL list (cut to `count`), or the placeholders |
| ImageChain.RunDirAnswersAreFiles | app/images/aggregator.py:55-73 | with a run folder every answer is a placeholder or a file under that folder named after a registered provider |
| ImageChain.AllDownloadsFailedSkips | app/search/aggregator.py:61-81 | a provider none of whose downloads succeeds is skipped as if it had answered nothing |
| ImageChain.FileNameHead | app/images/aggregator.py:57 | a file name starts with the first two letters of the lowercased provider class name (`pe`, `un`, `pi`), which differ between providers |
| ImageChain.FileNamesDistinct | app/search/aggregator.py:65 | two files of one search with the same name come from the same provider and position |
| ImageChain.PexelsUrls | app/images/providers/pexels_provider.py:16-53 | the Pexels adapter never raises and, for a positive count, never answers empty |
| ImageChain.PexelsFirstAnswers | app/images/aggregator.py:47-68 | with the Pexels adapter first and no run folder, the answer is its URLs cut to `count`, never the placeholders |
| QuotePayload.CollapseRunsNoRuns | app/generator/quote_generator.py:17-18 | after `re.sub(r"\s+", " ", …)` whitespace occurs only as single spaces |
| QuotePayload.CollapseRunsLast | app/generator/quote_generator.py:17-18 | collapsing keeps a non-space last character in place |
| QuotePayload.CollapseSpaces | app/generator/quote_generator.py:17-18 | `_collapse_spaces` never lengthens its input |
| QuotePayload.CollapseSpacesCollapsed | app/generator/quote_generator.py:17-18 | the result is trimmed, with whitespace only as single spaces |
| QuotePayload.CollapseRunsFixed | app/generator/quote_generator.py:17-18 | a string without whitespace runs is left as it is |
| QuotePayload.CollapseFixed | app/generator/quote_generator.py:17-18 | a collapsed string is a fixed point of `_collapse_spaces` |
| QuotePayload.CollapseIdempotent | app/generator/quote_generator.py:17-18 | collapsing twice is collapsing once |
| QuotePayload.HasWordCharMeans | app/generator/quote_generator.py:27 | the character-class search succeeds exactly when some character is a digit, an ASCII letter or a Hangul syllable |
| QuotePayload.BadPunctTokenMeans | app/generator/quote_generator.py:21-29 | a token is rejected exactly when its stripped form has no such character (the empty token included) |
| QuotePayload.Field | app/generator/quote_generator.py:36-39 | `dict.get`: a value exactly for a present key, and that key's value |
| QuotePayload.TitleOf | app/generator/quote_generator.py:41-47 | an accepted title is the stripped string, 6 to 14 characters, containing one of the two phrases; a non-string or a length outside 6..14 is rejected |
| QuotePayload.MapAllAccepts | app/generator/quote_generator.py:55-59 | a validation loop accepts exactly when every item passes |
| QuotePayload.MapAllFirstError | app/generator/quote_generator.py:55-59 | a rejected loop raises the error of its first failing item, every earlier item having passed |
| QuotePayload.CleanLine | app/generator/quote_generator.py:56-59 | a line is accepted exactly when its collapsed form has 8 to 18 characters, and is kept collapsed |
| QuotePayload.CleanLinesMeans | app/generator/quote_generator.py:54-59 | the lines are accepted exactly when every collapsed line has 8 to 18 characters, and each kept line is the collapsed one |
| QuotePayload.LinesOf | app/generator/quote_generator.py:49-59 | accepted `quote_lines` number 2 to 4 |
| QuotePayload.CleanToken | app/generator/quote_generator.py:73-79 | an accepted token is the stripped token, 1 to 6 characters, holding a letter or digit; otherwise one of the two token errors |
| QuotePayload.CleanTag | app/generator/quote_generator.py:88 | a cleaned tag never starts with `#` |
| QuotePayload.CleanTags | app/generator/quote_generator.py:88 | the comprehension never adds tags and leaves none starting with `#` |
| QuotePayload.HashOnlyTagKept | app/generator/quote_generator.py:88 | a tag made only of `#` signs is kept, as the empty string |
| QuotePayload.Cut20 | app/generator/quote_generator.py:92 | every tag is cut to its first 20 characters |
| QuotePayload.TagsOf | app/generator/quote_generator.py:86-92 | accepted tags number 3 to 6, each at most 20 characters with no leading `#` |
| QuotePayload.UnitsOf | app/generator/quote_generator.py:61-84 | accepted `typing_units` have one row per cleaned line |
| QuotePayload.CleanRowWellFormed | app/generator/quote_generator.py:67-84 | an accepted row is non-empty, its tokens are 1 to 6 trimmed characters with a letter or digit, and joined by spaces they collapse to the row's line |
| QuotePayload.ValidatedWellFormed | app/generator/quote_generator.py:32-99 | every accepted payload meets all the schema's bounds |
| QuotePayload.CleanRowFixed | app/generator/quote_generator.py:67-84 | a well-formed row passes the row checks unchanged |
| QuotePayload.CanonicalRoundTrip | app/generator/quote_generator.py:32-99 | a well-formed payload with clean tags, written as JSON, validates back to itself |
| QuotePayload.CleanLinesLoop | app/generator/quote_generator.py:54-59 | the line loop computes exactly `CleanLines` |
| QuotePayload.CleanTokensLoop | app/generator/quote_generator.py:72-79 | the token loop computes exactly `CleanTokens` |
| QuotePayload.CleanRowLoop | app/generator/quote_generator.py:68-84 | one row, step by step, computes exactly `CleanRow` |
| QuotePayload.CleanRowsLoop | app/generator/quote_generator.py:66-84 | the row loop computes exactly `CleanRows` |
| QuotePayload.CleanRowsStep | app/generator/quote_generator.py:67-84 | one row: a failing row ends validation with its error, a passing row is appended and validation goes on with the next |
| QuotePayload.ValidatePayload | app/generator/quote_generator.py:32-99 | validation step by step computes exactly `Validate` |
| QuotePayload.ReadQuoteLines | app/generator/quote_generator.py:49-59 | the `quote_lines` checks and the line loop compute exactly `LinesOf` |
| QuotePayload.ReadTypingUnits | app/generator/quote_generator.py:61-84 | the `typing_units` checks and the row loop compute exactly `UnitsOf` |
| QuoteRetry.Attempt | app/generator/quote_generator.py:151-157 | a success is the validated reply; a validation failure carries validation's error; an AI failure carries the exception |
| QuoteRetry.ValueErrorRepr | app/generator/quote_generator.py:161 | `repr` of a `ValueError` quotes its message with `'`, or with `"` when the message holds a `'` |
| QuoteRetry.RunFrom | app/generator/quote_generator.py:150-163 | the loop sends at most its remaining attempts, the first being the current prompt |
| QuoteRetry.AttemptCount | app/generator/quote_generator.py:150 | `range(max_retries + 1)` makes `max_retries + 1` attempts, none for a negative count |
| QuoteRetry.GenerateCalls | app/generator/quote_generator.py:150-157 | at most `max_retries + 1` prompts, at least one when `max_retries >= 0` |
| QuoteRetry.RunShape | app/generator/quote_generator.py:150-161 | every prompt but the last failed and the next one is it plus that failure's feedback; success exactly when the last attempt validates |
| QuoteRetry.RunGiveUp | app/generator/quote_generator.py:158-163 | when the loop gives up, the message names the last failure |
| QuoteRetry.GenerateWellFormed | app/generator/quote_generator.py:143-163 | a returned payload is what validation made of the last reply, so it meets the schema |
| QuoteRetry.GenerateGivesUp | app/generator/quote_generator.py:150-163 | the loop gives up only after all `max_retries + 1` attempts failed, naming the last failure |
| QuoteRetry.TryOnce | app/generator/quote_generator.py:152-157 | the `try` body computes exactly one `Attempt` |
| QuoteRetry.GenerateDailyQuote | app/generator/quote_generator.py:143-163 | the loop as written returns exactly what `Generate` predicts, prompts included |
| StageDirections.RunBefore | app/generator/script_generator.py:22-32 | the `[^\]]+` / `[^\)]+` run: the longest prefix without the closing character |
| StageDirections.InnerAt | app/generator/script_generator.py:22-32 | a match has a non-empty inner text and fits in the string |
| StageDirections.Skip | app/generator/script_generator.py:22-32 | each step of the scan advances by at least one character and stays within the string |
| StageDirections.Emit | app/generator/script_generator.py:16-30 | a step emits nothing (a dropped direction) or exactly the text it skipped |
| StageDirections.Sub | app/generator/script_generator.py:22-32 | a substitution never lengthens the text |
| StageDirections.SubWithoutKeyword | app/generator/script_generator.py:16-20 | text without any keyword passes a substitution unchanged |
| StageDirections.StripBracketsWithoutKeyword | app/generator/script_generator.py:14-33 | a line without any keyword keeps all its brackets |
| StageDirections.SubChars | app/generator/script_generator.py:22-32 | a substitution only removes characters, never adds one |
| StageDirections.KeywordAnyCase | app/generator/script_generator.py:18-28 | a keyword is found in the lowered inner text whatever the ASCII case it is written in, so `BGM` counts as `bgm` |
| StageDirections.SplitLines | app/generator/script_generator.py:36 | at least one line, none holding a line break |
| StageDirections.CleanLineShape | app/generator/script_generator.py:37-40 | a cleaned line is trimmed and holds only characters of the line |
| StageDirections.KeptLinesShape | app/generator/script_generator.py:35-42 | every kept line is non-empty, trimmed and without a line break |
| StageDirections.FoldBlanksNoPair | app/generator/script_generator.py:46 | after `re.sub(r"[ \t]{2,}", " ", …)` no two adjacent characters are both spaces or tabs |
| StageDirections.FoldBlanksChars | app/generator/script_generator.py:46 | folding adds no character except spaces |
| StageDirections.FoldBlanksAcrossNewline | app/generator/script_generator.py:45-46 | a newline ends every run, so folding the joined text folds each line |
| StageDirections.CleanLineWithoutKeyword | app/generator/script_generator.py:37-40 | a line without any keyword is only trimmed |
| StageDirections.CleanWithJoin | app/generator/script_generator.py:44-47 | the output is the kept lines, each with its blanks folded, joined by newlines |
| StageDirections.OutputLinesGood | app/generator/script_generator.py:35-47 | every output line is non-empty and trimmed, with no line break and no two adjacent blanks |
| StageDirections.CleanWithSplit | app/generator/script_generator.py:44-47 | splitting the output at newlines gives its lines back |
| StageDirections.NothingKeptOfEmpty | app/generator/script_generator.py:9-10 | the empty text keeps no line |
| StageDirections.KeptWithoutKeyword | app/generator/script_generator.py:35-42 | lines without a keyword are only trimmed, the blank ones dropped |
| StageDirections.CleanStageDirectionsLoop | app/generator/script_generator.py:1-47 | the function as written computes exactly `CleanWith` |
| SubtitleSplit.NonBlank | app/video/video_creator.py:117 | a line contributes its stripped form, and only when that is non-empty |
| SubtitleSplit.PackFromChunks | app/video/video_creator.py:124-136 | each packed chunk is non-empty, and one longer than `max_chars` is a single word of the line |
| SubtitleSplit.PackFromJoin | app/video/video_creator.py:124-136 | with no empty word, the chunks joined by single spaces give the words joined by single spaces |
| SubtitleSplit.PackJoin | app/video/video_creator.py:119-136 | packing a line without double spaces only chooses where to break it |
| SubtitleSplit.CutFromPieces | app/video/video_creator.py:144-145 | the cut pieces are non-empty, at most `max_chars` long, and concatenate to what was cut |
| SubtitleSplit.HardCutPieces | app/video/video_creator.py:140-145 | a chunk that fits is kept whole; a longer one is cut into pieces of at most `max_chars` that concatenate to it |
| SubtitleSplit.SegmentsBounded | app/video/video_creator.py:107-146 | every segment is non-empty and at most `max_chars` long |
| SubtitleSplit.SegmentsNonEmpty | app/video/video_creator.py:112-117 | a non-blank text has at least one segment |
| SubtitleSplit.SegmentsByLine | app/video/video_creator.py:116-117 | newlines are hard boundaries: the segments are those of each non-blank line in turn |
| SubtitleSplit.ShortLineWhole | app/video/video_creator.py:119-142 | a line of at most `max_chars` characters is one segment, unchanged |
| SubtitleSplit.PackWords | app/video/video_creator.py:124-136 | the word loop appends exactly the packed chunks of the line |
| SubtitleSplit.CutPiece | app/video/video_creator.py:144-145 | the hard-cut loop appends exactly the cut pieces |
| SubtitleSplit.SplitText | app/video/video_creator.py:107-146 | the function as written computes exactly `SplitTextSpec` |
| SubtitleSplit.PackLines | app/video/video_creator.py:118-136 | the part loop appends, part by part, exactly what `Packer` makes of each part |
| SubtitleSplit.CutParts | app/video/video_creator.py:139-145 | the hard-cut loop appends, part by part, exactly what `Cutter` makes of each part |
| Wrap.LineWrapper | app/video/video_creator.py:184-196 | each line is wrapped by the word loop over its `split(" ")` words |
| Wrap.WrapWordsLines | app/video/video_creator.py:186-196 | every emitted line is non-empty, and a line wider than the width holds no space (a single word) |
| Wrap.GreedyWrapLines | app/video/video_creator.py:183-196 | every line of the greedy wrap is non-empty, and one wider than the width is a single word |
| Wrap.WrapLineWords | app/short/short_creator.py:37-49 | the word loop of one line appends exactly its wrapped lines |
| Wrap.WrapWord | app/short/short_creator.py:40-47 | one pass of the word loop: the word joins the line in progress, or that line is emitted (when non-empty) and the word starts the next, leaving the loop's outcome unchanged |
| Wrap.GreedyWrapLoop | app/video/video_creator.py:182-196 | the wrap loop as written in both subtitle images computes exactly `GreedyWrap` |
| Wrap.SpaceJoinKeeps | app/video/video_creator.py:187 | `(cur + " " + word).strip()` only adds and drops spaces |
| Wrap.WrapWordsText | app/video/video_creator.py:186-196 | the word loop loses no word and adds nothing but spaces |
| Wrap.GreedyWrapText | app/video/video_creator.py:183-196 | for text whose only whitespace is spaces and newlines, the wrapped lines hold every word, whole and in order |
| Wrap.CharWrapLines | app/short/short_creator.py:109-119 | pieces of a too-wide token are non-empty and fit, unless one character is wider than the line |
| Wrap.CharWrapConcat | app/short/short_creator.py:109-119 | the pieces of a cut token concatenate back to it |
| Wrap.WidthWrapper | app/short/short_creator.py:88-129 | each line is stripped, skipped when blank, else its tokens wrapped |
| Wrap.WrapByWidthLines | app/short/short_creator.py:72-131 | every line of `wrap_text_by_width` is non-empty, and fits the width unless it is a single character |
| Wrap.TokenWrapText | app/short/short_creator.py:102-129 | the token loop loses no character and adds nothing but spaces |
| Wrap.WrapByWidthText | app/short/short_creator.py:72-131 | for text whose only whitespace is spaces and newlines, the lines hold every character except whitespace, in order |
| Wrap.CharWrapLoop | app/short/short_creator.py:109-119 | the character loop appends exactly `CharWrap`'s pieces |
| Wrap.WrapToken | app/short/short_creator.py:102-127 | one pass of the token loop advances the functional token wrap by one token |
| Wrap.TokenWrapLoop | app/short/short_creator.py:93-129 | the token loop with `flush()` appends exactly `TokenWrap`'s lines |
| Wrap.WrapTextByWidth | app/short/short_creator.py:72-131 | `wrap_text_by_width` as written computes exactly `WrapByWidth` |
| Wrap.WrapRawLines | app/short/short_creator.py:88-129 | the loop over the text's lines appends exactly the wrapped lines of each non-blank line |
| Wrap.Ellipsize | app/video/video_creator.py:205-208 | too many lines leave exactly `max_lines`, the earlier ones unchanged and the last cut by one character and ended with "…"; otherwise nothing changes |
| Wrap.EllipsizeIdempotent | app/short/short_creator.py:164-167 | truncating twice is truncating once |
| Slideshow.CeilDiv | app/video/video_creator.py:35 | `math.ceil(a / b)`: the least `q` with `a <= q * b` |
| Slideshow.SlideCount | app/short/short_creator.py:208 | at least one slide; the slides fill the duration, and one fewer would not |
| Slideshow.PositiveOr | app/video/video_creator.py:18-20 | a positive configured duration is kept, any other becomes the fallback |
| Slideshow.Cycle | app/video/video_creator.py:38 | one URL per slide |
| Slideshow.CycleShape | app/short/short_creator.py:209 | every slide shows a listed image, the cycle repeats with period `len(urls)`, and its first `len(urls)` slides are the list |
| Slideshow.LoadedOnce | app/video/video_creator.py:41-61 | a URL is loaded again only after every earlier load of it failed; the cache holds exactly the URLs loaded successfully |
| Slideshow.LoadedCounts | app/video/video_creator.py:43-66 | `ok + fail` is the number of slides, and `fail` counts the failed loads |
| Slideshow.LoadedCacheKeys | app/video/video_creator.py:49-60 | the cache only holds URLs of the slides seen |
| Slideshow.LoadedCacheSize | app/video/video_creator.py:60-72 | `unique_images` is the number of successful loads |
| Slideshow.LoadedAll | app/video/video_creator.py:47-63 | when no load fails, every slide has a clip, the image cached for its URL |
| Slideshow.LoadedAllKeys | app/video/video_creator.py:41-60 | when no load fails, every distinct URL is loaded exactly once |
| Slideshow.LoadClips | app/video/video_creator.py:41-66 | the clip loop with its cache dictionary computes exactly `LoadPrefix` |
| Slideshow.LongSegmentsShape | app/video/video_creator.py:75-77 | there is always a segment: the one empty segment exactly for a blank script, else non-empty segments of at most 48 characters |
| Slideshow.LongSources | app/video/video_creator.py:30-32 | the image list, or the placeholder alone when it is empty |
| Slideshow.LongVideoShape | app/video/video_creator.py:12-77 | slides of the image duration fill the target over the list; the call fails exactly when no clip was made, every slide having failed; otherwise there are 1 to `n` clips and the subtitles are the script's non-empty segments |
| Slideshow.CreateLongVideo | app/video/video_creator.py:12-77 | `create_long_video` as written, up to the rendering, computes exactly `LongVideo` |
| Slideshow.ShortSources | app/short/short_creator.py:196-199 | the sources are never empty |
| Slideshow.ShortSourcesShape | app/short/short_creator.py:196-199 | the sources are the non-empty given URLs, or the placeholder alone when there is none |
| Slideshow.ShortClips | app/short/short_creator.py:211-224 | never more clips than slides |
| Slideshow.ShortClipsLoaded | app/short/short_creator.py:211-224 | the clips are the loaded images in slide order, and there are none exactly when every load failed |
| Slideshow.ShortVideoShape | app/short/short_creator.py:190-227 | slides of the slide duration fill the duration; the call fails exactly when every slide failed to load |
| Slideshow.LoadShortClips | app/short/short_creator.py:211-224 | the short clip loop computes exactly `ShortClips` |
| Slideshow.CreateShortVideo | app/short/short_creator.py:190-227 | `create_short_video` as written, up to the rendering, computes exactly `ShortVideo` |
| TypingEffect.Sum | app/short/quote_creator.py:83 | the token count is zero exactly when every row is empty |
| TypingEffect.TotalTokens | app/short/quote_creator.py:83-84 | the divisor is the token count, or 1 when there are no tokens; never zero |
| TypingEffect.StateAfterStart | app/short/quote_creator.py:114 | typing starts from one empty list per row |
| TypingEffect.StateAfterStep | app/short/quote_creator.py:126-127 | appending the next token advances the state by exactly one token |
| TypingEffect.StateAfterRowEnd | app/short/quote_creator.py:125-135 | a finished row is the next row not yet started; after the last row every token is shown |
| TypingEffect.StateAfterPrefix | app/short/quote_creator.py:125-130 | every row of the state is a prefix of that row's tokens |
| TypingEffect.DisplayAt | app/short/quote_creator.py:117-122 | finished rows show in full, the current row shows its typed tokens, later rows show an empty line |
| TypingEffect.TypedFramesCount | app/short/quote_creator.py:125-135 | there are exactly as many typed frames as tokens |
| TypingEffect.TypedFrameAt | app/short/quote_creator.py:125-135 | token `j` of row `i` makes frame `Sum(units[..i]) + j`, showing the state just after it |
| TypingEffect.ClipsShape | app/short/quote_creator.py:125-145 | one clip per token plus the hold, which is last and shows every row in full |
| TypingEffect.MakeDisplayLines | app/short/quote_creator.py:117-122 | `make_display_lines` computes exactly `DisplayLines` |
| TypingEffect.TypeQuote | app/short/quote_creator.py:114-145 | the frame loop computes exactly `Clips` |
| PipelineLoader.Kept | app/pipeline/loader.py:8-10 | the non-separator characters: separator-free and never longer |
| PipelineLoader.Pieces | app/pipeline/loader.py:9 | the pieces are non-empty and separator-free, and the first starts with the key's first character when that is not a separator |
| PipelineLoader.PiecesConcat | app/pipeline/loader.py:9 | the pieces together are the key's non-separator characters, in order |
| PipelineLoader.PiecesJoin | app/pipeline/loader.py:9 | words joined by a separator split back into the same words |
| PipelineLoader.SnakeToCamelChars | app/pipeline/loader.py:8-10 | up to letter case, the camel-case name is the key's non-separator characters, in order |
| PipelineLoader.SnakeToCamelJoin | app/pipeline/loader.py:8-10 | a key of words joined by `_` camel-cases to the capitalised words |
| PipelineLoader.ModuleNameKey | app/pipeline/loader.py:29 | the module name gives the key back |
| PipelineLoader.ExampleCrime | app/pipeline/loader.py:21 | `crime` names `CrimePipeline` |
| PipelineLoader.ExampleHumor | app/pipeline/loader.py:22 | `humor` names `HumorPipeline` |
| PipelineLoader.ExampleTrueCrime | app/pipeline/loader.py:23 | `true_crime` names `TrueCrimePipeline` |
| PipelineLoader.LoadPipelineClass | app/pipeline/loader.py:25-36 | empty-key error exactly for a missing or blank key; the import error, naming the module, exactly when the module does not exist; the class-not-found `ImportError` exactly when the module exists without the class, its message naming both; success exactly when module and class exist, giving that class |
| RunContext.RunIndex | app/utils/run_context.py:26-35 | a run index is found only in a name starting with `date_` |
| RunContext.MaxIndexIsMax | app/utils/run_context.py:28-37 | the maximum bounds every run index of the date and, unless 0, is one of them |
| RunContext.RunIndexOfName | app/utils/run_context.py:26-39 | the new run's name reads back as its index |
| RunContext.OtherDateIgnored | app/utils/run_context.py:26 | a run of another date of the same length is not counted |
| RunContext.RunDirFresh | app/utils/run_context.py:28-39 | the new run's name differs from every existing directory's |
| RunContext.NextIndex | app/utils/run_context.py:28-37 | the scan gives the largest index plus one |
| RunContext.CreateRunContext | app/utils/run_context.py:17-47 | the context names `<root>/<date>_<max+1>` with its `images` and `scripts`, a directory not already there |
| ConfigLoader.GetEnv | app/utils/config_loader.py:22-26 | the variable's value, else the default; an error with its message exactly when required and missing or empty |
| ConfigLoader.GetEnvOptional | app/utils/config_loader.py:22-26 | an optional setting with a default never fails, and an empty set value is kept |
| ConfigLoader.GetBoolIgnoresDefault | app/utils/config_loader.py:29-33 | a set value outside the truthy words reads false whatever the default |
| ConfigLoader.GetBoolEmpty | app/utils/config_loader.py:29-33 | an empty value reads false, even with default true |
| ConfigLoader.GetBoolTruthy | app/utils/config_loader.py:29-33 | a truthy word reads true in any letter case with surrounding whitespace |
| ConfigLoader.ParseInt | app/utils/config_loader.py:40-41 | a parsed integer comes from a non-blank string |
| ConfigLoader.ParseIntRoundTrip | app/utils/config_loader.py:40-41 | `int(str(n)) == n` for every integer |
| ConfigLoader.GetInt | app/utils/config_loader.py:36-43 | the default when unset or empty; else the parsed value, or the not-an-int error naming the value |
| ConfigLoader.GetIntWritten | app/utils/config_loader.py:36-43 | a variable holding an integer's decimal string reads as that integer |
| ConfigLoader.ConfigRules | app/utils/config_loader.py:54-61 | loading fails exactly when the OpenAI key is missing or empty; the other fields take their values or defaults |

## Left out

- Network access: the RSS download and parsing (feedparser), `requests`, and Reddit's `_fetch_posts` are not modelled. Each provider receives the parsed entries, or the fact that fetching raised, as a parameter.
- The image adapters' HTTP searches are outcomes supplied as parameters. Only the Pexels URL selection is modelled.
- File I/O is an oracle: the seen-store file's contents on load, and `download_image_to` (saved, failed, or raised). Writing is modelled as the value written. Concurrent runs racing on the unlocked seen file are not modelled.
- Clocks are parameters: each read of the current time becomes its own argument.
- `random.shuffle` is Fisher–Yates driven by a stream of draws, with `randbelow(n)` as `draw % n`. The distribution of the Mersenne Twister is not modelled.
- Rendering is not modelled: fonts, pixels, MoviePy clips and audio. Text width is an uninterpreted function supplied by the caller.
- Floating-point timing is not modelled: the typing interval and hold clamping and the subtitle `seg_duration` have no member, and clip durations are inputs.
- Slideshow.CeilDiv: integer ceiling division stands in for `math.ceil` of a float quotient; they agree on the integer inputs modelled.
- PyStr.Lower and PyStr.Upper: only ASCII letters change case; Python's full Unicode case mapping is not modelled. For the stage-direction keywords and the boolean words this changes no answer: the keywords are Hangul, which has no case, plus `bgm`, the boolean words are ASCII, and no non-ASCII character lowers to any of their letters.
- BbcNews.Search: the query, title and summary are lowered with ASCII-only folding, while Python's `str.lower()` also folds non-ASCII letters, so a query "É" matches a title "école" in the source but not in the model.
- PipelineLoader.Capitalize: a key part that starts with a non-ASCII letter keeps it as it is, where Python's `str.upper()` would change it (for example "ß" to "SS").
- StageDirections.SplitLines: splits at every character that `str.splitlines()` treats as a line break, but a "\r\n" pair or a final line break produces an extra empty line, which the cleaner drops as blank anyway.
- SubtitleSplit.SplitText: requires max_chars >= 1. The source raises at 0 and drops pieces for negative values; its one caller passes 48.
- Wrap.Ellipsize: the line budget is a nat. Callers pass 2 and 3.
- RunContext.RunIndex: recognises only ASCII digits, not every Unicode digit that `\d` and `int()` accept.
- RunContext.CreateRunContext: the `mkdir` calls are not modelled. Freshness is proved against existing directories only; a plain file that already bears the run directory's name, which would make `mkdir` raise, is not excluded.
- ConfigLoader.ParseInt: accepts ASCII digits, with single underscores between them, an optional sign and surrounding whitespace. Non-ASCII digits, which `int()` also accepts, are rejected.
- `importlib` is modelled as a map from module path to the classes it defines. Import side effects are not modelled.
- Loading `.env` files, logging, and `_load_env`'s file reading are not modelled. The environment is a map given as input.
- `build_daily_quote_prompt` and the AI provider are not modelled: the first prompt is a parameter, and each reply is an oracle that either returns a parsed object or raises.
- QuoteRetry.ValueErrorRepr: `repr` of a ValueError is modelled only for messages that hold no `"` and no backslash, which holds for every message the validator builds.
- The pipelines' orchestration in `main.py` and the pipeline classes' wiring of components are not modelled.
