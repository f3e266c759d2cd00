# WeChat digest core, modelled in Dafny

This project models the core of a tool that:
- reads articles from a Wewe-RSS feed of WeChat official accounts;
- screens out promotional "noise";
- has a hosted language model summarise each article;
- pushes one digest message to WeChat through Server酱.

The model covers these parts:

- **Keyword pre-checks** (`AiProcessor`, `ArticleClassifier`, shared parts in `Noise`). Each noise type's keyword list is counted against `title + content`. This covers:
  - the running best type and its tie rules;
  - the rate and confidence rule (in the classifier);
  - the mapping from type to noise level;
  - the per-type bullet requirements of the abbreviated prompt.
- **Model-output parsing** (`AiResponse`). This is the `_parse_ai_response` that `ai_processor.py` and `ai_summarizer.py` both carry in identical form. It models Python regular-expression semantics exactly:
  - the lazy tag group and its look-ahead, with `$` in non-multiline mode;
  - `re.split` on the tag delimiters;
  - the backtracking of `\s*\n` in the summary search;
  - the line-by-line deletion done by `re.sub(r'【标签】.+', '', …)`;
  - the whitespace set shared by `\s` and `str.strip()`.
- **Prompt building and error sentinels** (`AiProcessor`, `AiSummarizer`). Truncation of the body to 4000 or 2000 characters, the fixed prompt texts, and the summary returned on an error status or an exception. `process_article` chooses the abbreviated path exactly when the pre-check says noise. `generate_batch_summaries` is modelled as a loop that stores a summary into each article record.
- **The feed reader** (`RssParser`). A `Reader` class holds the seen-link set and the state file. `FetchArticles` is `fetch_articles`; its loop, `ScanFeed`, works on a local copy of the seen set and is proved against the specification function `Scan`. It covers:
  - the dedupe against the seen set;
  - the inclusive time window, which is fail-open (an entry with no timestamp is kept);
  - the cap;
  - saving only when something was returned.

  Entry fields fall back as the source does.
- **The notifier** (`PushNotifier`). This covers:
  - the single-message body chosen by noise level;
  - the type display names;
  - the digest: header, one numbered section per article, and statistics;
  - the success test on the push service's reply.

  The digest body is built by a loop and proved equal to `BatchContent`.

`Text` holds the Python `str` primitives used throughout: `strip`, `in`, slicing, `join` and `str(int)`. `Common` holds the values passed between the parts.

External services are inputs, not calls:
- Language model: a function from prompt to `GenOutcome`. The batch passes the call's index as well, so that two calls in one batch may answer differently.
- Feed: a sequence of `FeedEntry` values.
- Push service: a function from title and body to `PostOutcome`.
- Clock: integers (`now`, in seconds) and strings (the digest's update time).
- Published-time formatter: a function `formatTime`.

Three behaviours of the code, stated plainly:
- **Time window.** An entry with neither a published nor an updated time is kept, not dropped (src/rss_parser.py:120-122).
- **Tag delimiters.** Tags are split on `、`, `,`, `，` and whitespace, and on nothing else (src/ai_processor.py:292).
- **Summary capture.** The summary is captured only when the marker is followed by optional whitespace and then a line break (src/ai_processor.py:297).

## Model

| member | source | states |
|---|---|---|
| `Text.StripTrims` | src/ai_processor.py:291 | `str.strip()`: the result neither starts nor ends with a whitespace character |
| `Text.StripIsInfix` | src/ai_processor.py:299 | the stripped text is a contiguous piece of the input with only whitespace on either side |
| `Text.ContainsIffOccurs` | src/ai_processor.py:111 | `kw in text` holds exactly when some position of the text starts a copy of `kw` |
| `Text.JoinContainsEach` | src/push_notifier.py:66 | `sep.join(parts)` starts with the first part and contains every part |
| `Text.Take` | src/ai_processor.py:166 | `s[:n]` has length `min(len(s), n)` and is a prefix of `s` |
| `Text.NatToStringRoundTrip` | src/push_notifier.py:175 | `str(n)` for a count is faithful: parsing it back gives `n` |
| `Noise.NoiseLevelOf` | src/ai_processor.py:128-134 | `noise` exactly for the six advertising types, `pr` exactly for 融资/公关, and `light` exactly for every other name |
| `Noise.Hits` | src/ai_processor.py:109-112 | a type's count never exceeds the length of its keyword list |
| `Noise.HitsCountsPositions` | src/ai_processor.py:109-112 | the count is the number of list entries that are substrings of the text; an entry listed twice counts twice |
| `Noise.HitsCountsDistinctKeywords` | src/article_classifier.py:90-93 | for a list without repeats, the count is the number of distinct keywords found in the text |
| `Noise.CountHits` | src/article_classifier.py:90-93 | the inner keyword loop computes `Hits` |
| `Noise.PointsCoverEveryLevelledType` | src/ai_summarizer.py:163-174 | the default bullets are used exactly for the types whose level is `light` |
| `AiResponse.LazyTagEnd` | src/ai_processor.py:289 | the lazy `(.+?)` ends at the first point where `【总结】`, a blank line or the end of the text follows, without crossing a line break; if there is no such point there is no match |
| `AiResponse.FindTagFrom` | src/ai_processor.py:289 | the leftmost match of the tag pattern at or after a position with its end; none exactly when no position matches |
| `AiResponse.TagGroupEndUnique` | src/ai_processor.py:289 | a match position determines where the lazy group ends |
| `AiResponse.TagGroup` | src/ai_processor.py:289-291 | `tag_match.group(1)`: absent exactly when the pattern matches nowhere; otherwise a non-empty, single-line piece of the text that follows the marker at the leftmost matching position, as `re.search` picks it |
| `AiResponse.NextDelimiter` | src/ai_processor.py:292 | the next delimiter position; the text before it holds no delimiter |
| `AiResponse.DelimiterRunEnd` | src/ai_processor.py:292 | the greedy `+` of `[、,，\s]+`: every character from the start up to the result is a delimiter, and the character after it is not |
| `AiResponse.SplitOnDelimiters` | src/ai_processor.py:292 | `re.split` yields at least one piece; every piece is a whole stretch of the text between delimiters (or its ends), and every non-empty such stretch is a piece |
| `AiResponse.KeepNonBlank` | src/ai_processor.py:293 | `if c.strip()`: a piece is kept exactly when it is not blank |
| `AiResponse.Tokens` | src/ai_processor.py:291-293 | the candidate tags are exactly the non-empty stretches between delimiters of the stripped section, and each occurs in the section |
| `AiResponse.Dedupe` | src/ai_processor.py:293 | `set(...)`: no repeats and the same elements |
| `AiResponse.FirstFiveAdmissible` | src/ai_processor.py:293-294 | the first five distinct tokens are one of the results `list(set(tokens))[:5]` can give |
| `AiResponse.TagList` | src/ai_processor.py:293-294 | the tag list is duplicate-free, drawn from the tokens, and as long as `min(5, number of distinct tokens)` |
| `AiResponse.SpaceRunEnd` | src/ai_processor.py:297 | the greedy `\s*`: everything up to the end is whitespace and the next character is not |
| `AiResponse.BacktrackToNewline` | src/ai_processor.py:297 | the backtracking of `\s*\n(.+)`: the last line break in the whitespace run that has a character after it |
| `AiResponse.FindSummaryFrom` | src/ai_processor.py:297 | the leftmost `【总结】\s*\n(.+)` match with the whitespace it skips; none exactly when no position matches |
| `AiResponse.LineEnd` | src/ai_processor.py:302 | `.+` without DOTALL stops at the first line break |
| `AiResponse.RemoveTagLines` | src/ai_processor.py:302 | the substitution never lengthens the text |
| `AiResponse.DeletedLineLeavesNewline` | src/ai_processor.py:302 | a deleted tag line leaves its line break in place |
| `AiResponse.RemoveTagLinesKeepsHead` | src/ai_processor.py:302 | text before the first tag marker is left unchanged |
| `AiResponse.RemoveTagLinesLeavesNone` | src/ai_processor.py:302 | the result contains no `【标签】` followed by a character on the same line |
| `AiResponse.RemoveTagLinesFixesClean` | src/ai_processor.py:302 | a text without such a line is left unchanged |
| `AiResponse.RemoveTagLinesIdempotent` | src/ai_processor.py:302 | a second substitution changes nothing |
| `AiResponse.RemoveTagLinesKeepsNewlines` | src/ai_processor.py:302 | the substitution keeps every line break |
| `AiResponse.ParseCategories` | src/ai_summarizer.py:127-133 | no tag match gives no categories; a match gives an admissible tag list of its group's tokens, each of which occurs in the tag section and in the text |
| `AiResponse.ParseSummary` | src/ai_summarizer.py:137-142 | with a summary match, the stripped text after the first matching marker; with none, the text with its tag lines removed, stripped |
| `AiResponse.ParseAiResponse` | src/ai_processor.py:272-307 | at most 5 categories, no repeats, each non-empty, free of delimiters and whitespace and found in the text; categories and summary as the two rules above |
| `AiResponse.SummaryBodyIgnoresLeadingSpace` | src/ai_processor.py:297-299 | the stripped group equals the stripped text after the marker, whatever whitespace `\s*\n` consumed |
| `AiProcessor.Leader` | src/ai_processor.py:105-116 | the winner is the earliest type with the highest count (strict `>`), and no type scores more; there is a winner exactly when the best count is positive |
| `AiProcessor.LeaderNoneIffNoHits` | src/ai_processor.py:105-116 | no type wins exactly when every count is 0 |
| `AiProcessor.Verdict` | src/ai_processor.py:118-126 | noise exactly when some type has at least 2 hits; not noise means type and level are both absent; noise means the earliest best type and its level |
| `AiProcessor.MatchKeywords` | src/ai_processor.py:91-126 | the nested loops compute `Verdict` |
| `AiProcessor.DefaultTypesAreLevelled` | src/ai_processor.py:27-50 | every type of the default table is an advertising or announcement type |
| `AiProcessor.DefaultNoiseIsNoiseOrPr` | src/ai_processor.py:119-134 | with the table `__init__` installs (as written) and with the corrected one, a noise verdict has level `noise` or `pr`, never `light` |
| `AiProcessor.SalesGroupsDistinct` | src/ai_processor.py:31-43 | each group of the corrected 带货 list names each keyword once |
| `AiProcessor.SalesGroupsDisjoint` | src/ai_processor.py:31-43 | the corrected groups share no keyword |
| `AiProcessor.SalesKeywordsDistinct` | src/ai_processor.py:31-43 | the corrected 带货 list has no repeats |
| `AiProcessor.OtherListsSame` | src/ai_processor.py:29-50 | the corrected table differs from the table as written only in the 带货 list |
| `AiProcessor.OtherListsDistinct` | src/ai_processor.py:30-49 | every other list of the table has no repeats |
| `AiProcessor.DefaultKeywordsDistinct` | src/ai_processor.py:29-50 | no list of the corrected table has a repeat |
| `AiProcessor.DefaultNoiseNeedsTwoKeywords` | src/ai_processor.py:105-119 | with the corrected table, noise exactly when some type has at least two distinct keywords in the text |
| `AiProcessor.PiecesOfQiangGou` | src/ai_processor.py:111 | the only strings found in the text 抢购 are its pieces |
| `AiProcessor.AtMostOneKeyword` | src/ai_processor.py:108-112 | a list that does not name those pieces matches at most one distinct keyword in 抢购 |
| `AiProcessor.SalesGroupsNameNoPiece` | src/ai_processor.py:31-43 | no 带货 group names an empty keyword, 抢 or 购 |
| `AiProcessor.OtherListsNameNoPiece` | src/ai_processor.py:30-49 | no other list names an empty keyword, 抢 or 购 |
| `AiProcessor.NoListNamesPieces` | src/ai_processor.py:29-50 | no list of the table as written names an empty keyword, 抢 or 购 |
| `AiProcessor.AsWrittenOneKeywordEach` | src/ai_processor.py:29-50 | in the text 抢购 every list of the table as written has at most one distinct keyword |
| `AiProcessor.AsWrittenOthersHitOnce` | src/ai_processor.py:29-50 | in the text 抢购 every list but 带货 counts at most one hit |
| `AiProcessor.AsWrittenRepeatedKeywordCountsTwice` | src/ai_processor.py:33-38 | with the table as written, the text 抢购 is judged 带货 noise even though no list has two distinct keywords in it |
| `AiProcessor.SalesRepeatCountsTwice` | src/ai_processor.py:33-38 | the repeated 抢购 entry makes two hits out of one keyword |
| `AiProcessor.FullPrompt` | src/ai_processor.py:146-174 | the full prompt's length is the fixed text plus title, account name and at most 4000 characters of body |
| `AiProcessor.FullPromptTruncates` | src/ai_processor.py:161-166 | the prompt contains `content[:4000]` and depends on the body only through it |
| `AiProcessor.SimplePrompt` | src/ai_processor.py:225-249 | the abbreviated prompt's length is the fixed text plus requirements, title and at most 2000 characters of body |
| `AiProcessor.SimplePromptContents` | src/ai_processor.py:223-240 | the prompt contains `content[:2000]` and the type's requirements; an unknown type gets the three-placeholder default |
| `AiProcessor.SimplePromptTruncates` | src/ai_processor.py:237-240 | the abbreviated prompt depends on the body only through `content[:2000]` |
| `AiProcessor.OutcomeCategoriesBounded` | src/ai_processor.py:251-270 | whatever the service does (this block and the identical one at lines 176-195), at most 5 distinct categories, and none unless the status was 200; another status yields a summary starting with `API 错误: `, an exception one starting with the generator's failure prefix |
| `AiProcessor.ProcessArticle` | src/ai_processor.py:52-89 | the noise fields equal the keyword verdict on `title + content`; the abbreviated path is taken exactly when it says noise; categories are at most 5 and distinct |
| `AiProcessor.ProcessorNoiseIsNoiseOrPr` | src/ai_processor.py:72-89 | with the table `__init__` installs (as written) and with the corrected one, a processed noise article has level `noise` or `pr` |
| `ArticleClassifier.ClassifierKeywords` | src/article_classifier.py:21 | a non-empty supplied table is used; a missing or empty one falls back to the default |
| `ArticleClassifier.EqualCountRates` | src/article_classifier.py:98-102 | at equal positive counts, the higher rate belongs to the shorter list |
| `ArticleClassifier.OutranksIsReplacementTest` | src/article_classifier.py:97-105 | the replacement test is "more hits, or equal hits and a strictly higher rate" |
| `ArticleClassifier.Leader` | src/article_classifier.py:85-105 | the best match has positive hits, is outranked by no type that has a hit, and outranks every earlier type that has one; none means every count is 0 and the best values are unchanged |
| `ArticleClassifier.Match` | src/article_classifier.py:107-121 | confidence 90, 50 or 0 hundredths by best count (≥2, 1, 0); no type exactly when nothing is found; categories `[type]` unless the name is empty |
| `ArticleClassifier.MatchKeywords` | src/article_classifier.py:75-121 | the loops compute `Match` |
| `ArticleClassifier.Classify` | src/article_classifier.py:52-73 | noise exactly when confidence is above 80 hundredths; otherwise empty categories and no type or level; noise carries the match's type and its level |
| `ArticleClassifier.ClassifyNoiseIffTwoHits` | src/article_classifier.py:59-65 | the classifier reports noise exactly when some type has at least 2 hits |
| `ArticleClassifier.NoiseResultShape` | src/article_classifier.py:60-65 | a noise result has categories `[noise_type]` and level `_get_noise_level(noise_type)`, which is never `light` for the default table |
| `ArticleClassifier.LeaderTakes` | src/article_classifier.py:97-105 | a type that passes the replacement test (more hits, or as many at a higher rate) after the others becomes the best match |
| `ArticleClassifier.LeaderKeeps` | src/article_classifier.py:97-105 | a type that fails the replacement test leaves the best match of the others in place |
| `ArticleClassifier.DefaultListsDistinct` | src/article_classifier.py:23-34 | no default list repeats a keyword |
| `ArticleClassifier.DefaultNoiseNeedsTwoKeywords` | src/article_classifier.py:89-113 | with the default table, noise exactly when some type has at least two distinct keywords in the text |
| `AiSummarizer.FormatLength` | src/ai_summarizer.py:78-81 | a formatted prompt's length is its literal text plus the title and body once per placeholder |
| `AiSummarizer.FormatFive` | src/ai_summarizer.py:78-81 | formatting a five-piece template concatenates the five pieces |
| `AiSummarizer.SummaryPromptTruncates` | src/ai_summarizer.py:78-81 | the prompt depends on the body only through `content[:4000]` |
| `AiSummarizer.SummaryPromptBounded` | src/ai_summarizer.py:78-81 | the prompt holds at most 4000 body characters per `{content}` placeholder |
| `AiSummarizer.DefaultPromptContents` | src/ai_summarizer.py:42-81 | the default prompt is the fixed text around the title and `content[:4000]`, which it contains |
| `AiSummarizer.GenerateSummary` | src/ai_summarizer.py:27-105 | at most 5 distinct non-empty categories without delimiters, whatever the service does |
| `AiSummarizer.FailedCallHasNoCategories` | src/ai_summarizer.py:95-105 | a failed call yields empty categories and a summary starting with an error prefix |
| `AiSummarizer.SimplePromptContents` | src/ai_summarizer.py:163-195 | the abbreviated prompt is the fixed text with the type's requirements, the title and `content[:2000]`; an unknown type gets the default bullets |
| `AiSummarizer.SimpleFailedCallIsFlagged` | src/ai_summarizer.py:197-210 | another status gives a text starting with `API 错误: `, an exception one starting with `生成简化摘要失败: ` |
| `AiSummarizer.GenerateSimpleSummary` | src/ai_summarizer.py:151-210 | the service is asked with the abbreviated prompt; its text is returned unchanged on 200, and a failure is returned behind the matching error prefix |
| `AiSummarizer.SimpleSummaryTruncates` | src/ai_summarizer.py:192-195 | two articles with the same title and the same first 2000 body characters get the same simple summary |
| `AiSummarizer.ArticleRecord.constructor` | src/ai_summarizer.py:212-227 | a new record holds its article and no summary yet |
| `AiSummarizer.SummarizeEach` | src/ai_summarizer.py:222-230 | the loop of `generate_batch_summaries` for any per-article summariser: the same records come back in order, each holding the summary of its last position |
| `AiSummarizer.GenerateBatchSummaries` | src/ai_summarizer.py:212-230 | the results are the given records in order, and each record holds the summary of its last call; nothing else is modified |
| `RssParser.PublishedText` | src/rss_parser.py:66-71 | the first non-empty of `published`, `updated`, `pubDate`, else `Unknown`; never empty |
| `RssParser.ExtractContent` | src/rss_parser.py:124-134 | `content[0].value`, then `summary`, then `description`, then `""`; empty only when the chosen field is |
| `RssParser.TimeWindowRules` | src/rss_parser.py:98-122 | the published instant decides if present, else the updated one, both inclusively; an entry with neither is kept |
| `RssParser.ScanReturnsUnseenOnce` | src/rss_parser.py:81-86 | no returned link was seen before, and no link is returned twice |
| `RssParser.ScanKeepsFeedOrder` | src/rss_parser.py:64-90 | the result is a feed-order selection of entries inside the time window |
| `RssParser.RejectedStayUnseen` | src/rss_parser.py:82-86 | a link whose entries all fall outside the window is not returned |
| `RssParser.ScanRespectsCap` | src/rss_parser.py:88-90 | with a cap, at most `max(cap, 1)` articles are returned |
| `RssParser.ScanTakesEveryNewEntry` | src/rss_parser.py:64-90 | unless the cap ended the loop, every unseen entry inside the window has its link returned |
| `RssParser.LoadSeen` | src/rss_parser.py:28-34 | no state file means an empty set; otherwise the file's `seen_links`, empty when the key is missing |
| `RssParser.ListOfSet` | src/rss_parser.py:41 | `list(set)` holds every member exactly once |
| `RssParser.Reader.constructor` | src/rss_parser.py:16-26 | the seen set is whatever the state file holds |
| `RssParser.Reader.SaveSeenArticles` | src/rss_parser.py:36-43 | the saved file lists each seen link once, and loading it back gives the seen set |
| `RssParser.ScanFeed` | src/rss_parser.py:63-90 | the `for entry in feed.entries` loop returns exactly `Scan` of the feed and adds exactly the returned links to the seen set |
| `RssParser.Reader.FetchArticles` | src/rss_parser.py:45-96 | the result is `Scan` of the feed; the seen set grows by exactly the returned links; the file is saved exactly when something was returned |
| `PushNotifier.NamedTypesAreAdvertising` | src/push_notifier.py:86-96 | the types with a display name are exactly the types whose level is `noise` |
| `PushNotifier.BannerRule` | src/push_notifier.py:73-79 | the warning banner appears exactly for the levels `noise` (mapped name) and `pr` (raw type) |
| `PushNotifier.CategoryText` | src/push_notifier.py:66 | `未分类` when there are no tags; otherwise no tag is lost: every tag occurs in the text, which starts with the first tag |
| `PushNotifier.FormatContent` | src/push_notifier.py:51-84 | a recognised level gets the tag line; every message has the banner rule, the summary and the link; an unknown level gets only summary and link |
| `PushNotifier.FormatContentEndsWithLink` | src/push_notifier.py:68-82 | every single message ends with the link to the original |
| `PushNotifier.SingleTitle` | src/push_notifier.py:37-44 | the title ends with the article title and the formatted time; before them stands `【author】` when an author is shown, else the prefix and a space |
| `PushNotifier.SendRequest` | src/push_notifier.py:232-267 | success exactly when the status is 200 and the JSON object's `code` equals 0 (`0`, `0.0` or `false`); everything else, exceptions included, fails |
| `PushNotifier.SendSingleArticle` | src/push_notifier.py:27-49 | the result is the success test on the reply to that title and body |
| `PushNotifier.AuthorMark` | src/push_notifier.py:186-192 | the `【author】` mark appears exactly when the author is non-empty and not `Unknown` |
| `PushNotifier.TagLine` | src/push_notifier.py:196-200 | the digest's tag line appears exactly when there are categories |
| `PushNotifier.Body` | src/push_notifier.py:202-219 | the summary, after the banner for `noise`/`pr`; an unrecognised level emits nothing |
| `PushNotifier.SectionShape` | src/push_notifier.py:184-223 | section `i` starts with `### i. ` and ends with the link line and the separator |
| `PushNotifier.NormalCount` | src/push_notifier.py:171 | the normal count never exceeds the number of articles |
| `PushNotifier.NormalCountCounts` | src/push_notifier.py:171-172 | `normal_count` counts the articles with no level or `light`; `noise_count` counts the rest; together they make up the list |
| `PushNotifier.BatchTitleCount` | src/push_notifier.py:175 | the article count can be read back from the digest title |
| `PushNotifier.SectionInDigest` | src/push_notifier.py:183-223 | article `i` has its section, numbered `i + 1`, in the digest |
| `PushNotifier.ComposeSection` | src/push_notifier.py:186-223 | one pass of the loop builds `Section` |
| `PushNotifier.SendArticlesBatch` | src/push_notifier.py:156-230 | an empty list sends nothing and fails; otherwise the digest title and body are sent, and the result is the success test on the reply |

## Left out

- The language model, the feed download and the push request are not called. They are inputs to the model: `generate`, the entry sequence and `post`. Timeouts, `max_tokens` and the model name are not represented.
- File and JSON input/output of the state file:
  - `os.makedirs` is not modelled;
  - a malformed file (which raises) is not modelled;
  - the `updated_at` timestamp is not kept.

  The file is the `stateFile` field.
- The clock and local-time conversion are not modelled:
  - `datetime.now` becomes the parameter `now` or `updateTime`;
  - `time.mktime`/`fromtimestamp` become integer instants.
- `_format_published_time` (src/push_notifier.py:98-154) depends on feedparser, `strptime` and the local time zone. It is the opaque parameter `formatTime`.
- The classifier's float match rate is compared as the exact fraction `hits / len(keywords)`. Confidence is in hundredths (0.9 is 90). For lists of this size the ordering is the same.
- `list(set(...))` has no specified order. `AiResponse.TagList`, `AiResponse.ParseCategories` and `AiResponse.ParseAiResponse` state only what every order shares: distinct tokens of the group, `min(5, number of distinct tokens)` of them. The definition picks first-occurrence order.
- `RssParser.ListOfSet`: does not fix the order of `list(self.seen_articles)`; it states only that every member appears once.
- Custom templates for `generate_summary` are modelled as already-parsed sequences of text and `{title}`/`{content}` placeholders. Brace escapes and `str.format` errors on malformed templates are not modelled.
- Python dictionaries are modelled as ordered sequences of entries in their iteration order. A caller could pass a table with a repeated type name; the model keeps both entries, as a list would.
- Failures these files do not handle are not modelled:
  - a missing `title` key or `entry.title` attribute raises;
  - a dictionary can hold non-string values.
- A 200 response whose `output` is `None` raises inside the `try`, so the model covers it as the `Raised` outcome of `generate`.
- `article.get('summary')` returning an explicit `None` (rendered `None`) is not distinguished from a missing summary.
- The generation call's exception text is modelled as an already rendered string (`str(e)`).
- The debug `print`s and the `__main__` blocks are not modelled.

## Findings

| source | as written | input that shows it | evidently intended | confidence | as-written member | corrected member |
|---|---|---|---|---|---|---|
| src/ai_processor.py:33-38 | the 带货 list names 抢购 twice (with the price words and with the calls to action), and a type's score counts list entries | the title or body 抢购 alone: one keyword, two hits under 带货, so `_match_keywords` reports 带货 noise though the threshold asks for two keywords | each keyword counts once, so noise needs two distinct keywords of one type | not executed | `AiProcessor.AsWrittenRepeatedKeywordCountsTwice` | `AiProcessor.DefaultNoiseNeedsTwoKeywords` |

The corrected table `AiProcessor.DefaultKeywords` lists 抢购 once; `AiProcessor.DefaultKeywordsAsWritten` keeps the list as written, and it is the table `__init__` installs. `AiProcessor.ProcessArticle` takes its table as a parameter; the lemmas about the level of a noise verdict hold for both tables, and the intended counting rule is proved for the corrected one.
