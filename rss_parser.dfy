/** The feed reader: turning feed entries into article records, the time
    window, and the set of links already fetched, which `fetch_articles`
    consults and extends and which is kept in a state file between runs. */
module RssParser {
  import opened Text
  import opened Common

  /** The fields of one parsed feed entry that the reader looks at. A text
      field that is missing and one that is empty are both `""`, since the
      reader only tests them for truth. `author` keeps the difference, since
      `get('author', 'Unknown')` does. `content` holds the `value` of each
      element of `entry.content` (empty when there is none), and the parsed
      timestamps are instants in seconds. */
  datatype FeedEntry = FeedEntry(
    title: string,
    link: string,
    published: string,
    updated: string,
    pubDate: string,
    author: Option<string>,
    content: seq<string>,
    summary: string,
    description: string,
    publishedParsed: Option<int>,
    updatedParsed: Option<int>)

  /** The `published` value of the article: the first non-empty of the
      entry's `published`, `updated` and `pubDate`, else `'Unknown'`. */
  function PublishedText(e: FeedEntry): (r: string)
    ensures r != ""
    ensures e.published != "" ==> r == e.published
    ensures e.published == "" && e.updated != "" ==> r == e.updated
    ensures e.published == "" && e.updated == "" && e.pubDate != "" ==> r == e.pubDate
    ensures e.published == "" && e.updated == "" && e.pubDate == "" ==> r == "Unknown"
  {
    if e.published != "" then e.published
    else if e.updated != "" then e.updated
    else if e.pubDate != "" then e.pubDate
    else "Unknown"
  }

  /** `_extract_content`: the first content value, else the summary, else the
      description, else the empty string. */
  function ExtractContent(e: FeedEntry): (r: string)
    ensures |e.content| > 0 ==> r == e.content[0]
    ensures |e.content| == 0 && e.summary != "" ==> r == e.summary
    ensures |e.content| == 0 && e.summary == "" ==> r == e.description
    ensures r == "" <==> (if |e.content| > 0 then e.content[0] == "" else e.summary == "" && e.description == "")
  {
    if |e.content| > 0 then e.content[0]
    else if e.summary != "" then e.summary
    else if e.description != "" then e.description
    else ""
  }

  /** The article dictionary built for an entry. */
  function ToArticle(e: FeedEntry): (a: Article)
    ensures a.link == e.link && a.title == e.title
    ensures a.published == PublishedText(e) && a.content == ExtractContent(e)
    ensures a.author == e.author.GetOr("Unknown")
  {
    Article(e.title, e.link, PublishedText(e), e.author.GetOr("Unknown"), ExtractContent(e))
  }

  /** `now - timedelta(hours=max_hours)`, in seconds. */
  function Threshold(now: int, maxHours: int): int
  {
    now - maxHours * 3600
  }

  /** `_is_within_time_range`: the published instant decides when there is
      one, otherwise the updated instant; the bound is inclusive; an entry
      with neither is kept. */
  predicate WithinTimeRange(e: FeedEntry, threshold: int)
  {
    match e.publishedParsed
    case Some(t) => t >= threshold
    case None =>
      match e.updatedParsed
      case Some(t) => t >= threshold
      case None => true
  }

  /** The three rules of the time window, each stated on its own. */
  lemma TimeWindowRules(e: FeedEntry, threshold: int)
    ensures e.publishedParsed.Some? ==> (WithinTimeRange(e, threshold) <==> e.publishedParsed.value >= threshold)
    ensures e.publishedParsed.None? && e.updatedParsed.Some? ==> (WithinTimeRange(e, threshold) <==> e.updatedParsed.value >= threshold)
    ensures e.publishedParsed.None? && e.updatedParsed.None? ==> WithinTimeRange(e, threshold)
  {
  }

  /** The links of a list of articles, in order. */
  function LinksOf(articles: seq<Article>): (r: seq<string>)
    ensures |r| == |articles| && forall i :: 0 <= i < |articles| ==> r[i] == articles[i].link
  {
    if |articles| == 0 then [] else [articles[0].link] + LinksOf(articles[1..])
  }

  function Links(articles: seq<Article>): set<string>
  {
    set i | 0 <= i < |articles| :: articles[i].link
  }

  /** The links of a list with one more article. */
  lemma LinksAppend(articles: seq<Article>, a: Article)
    ensures Links(articles + [a]) == Links(articles) + {a.link}
  {
    var r := articles + [a];
    assert r[|articles|] == a;
    forall l | l in Links(articles)
      ensures l in Links(r)
    {
      var i :| 0 <= i < |articles| && articles[i].link == l;
      assert r[i] == articles[i];
    }
  }

  /** What the `for entry in feed.entries` loop returns from the entries that
      remain, given the seen set at that point and the number of articles
      already taken: an entry is taken when its link is unseen and it passes
      the time window; its link then becomes seen; the loop ends once the
      number taken reaches the cap. */
  function Scan(entries: seq<FeedEntry>, seen: set<string>, cap: Option<int>, threshold: int, taken: nat): seq<Article>
  {
    if |entries| == 0 then []
    else
      var e := entries[0];
      if e.link !in seen && WithinTimeRange(e, threshold) then
        if cap.Some? && taken + 1 >= cap.value then [ToArticle(e)]
        else [ToArticle(e)] + Scan(entries[1..], seen + {e.link}, cap, threshold, taken + 1)
      else Scan(entries[1..], seen, cap, threshold, taken)
  }

  /** Taking entry `k` when the cap is then reached ends the scan. */
  lemma ScanTakesLast(entries: seq<FeedEntry>, k: nat, seen: set<string>, cap: Option<int>, threshold: int, articles: seq<Article>)
    requires k < |entries| && entries[k].link !in seen && WithinTimeRange(entries[k], threshold)
    requires cap.Some? && |articles| + 1 >= cap.value
    ensures articles + Scan(entries[k..], seen, cap, threshold, |articles|) == articles + [ToArticle(entries[k])]
  {
    assert entries[k..][0] == entries[k];
  }

  /** Taking entry `k` below the cap moves it from the scan to the result. */
  lemma ScanTakes(entries: seq<FeedEntry>, k: nat, seen: set<string>, cap: Option<int>, threshold: int,
                  articles: seq<Article>, articles': seq<Article>, seen': set<string>)
    requires k < |entries| && entries[k].link !in seen && WithinTimeRange(entries[k], threshold)
    requires !(cap.Some? && |articles| + 1 >= cap.value)
    requires articles' == articles + [ToArticle(entries[k])] && seen' == seen + {entries[k].link}
    ensures articles + Scan(entries[k..], seen, cap, threshold, |articles|)
      == articles' + Scan(entries[k + 1..], seen', cap, threshold, |articles'|)
  {
    assert entries[k..][0] == entries[k] && entries[k..][1..] == entries[k + 1..];
    var rest := Scan(entries[k + 1..], seen', cap, threshold, |articles| + 1);
    Assoc(articles, [ToArticle(entries[k])], rest);
  }

  /** An entry that is seen or out of the window is passed over. */
  lemma ScanSkips(entries: seq<FeedEntry>, k: nat, seen: set<string>, cap: Option<int>, threshold: int, taken: nat)
    requires k < |entries| && !(entries[k].link !in seen && WithinTimeRange(entries[k], threshold))
    ensures Scan(entries[k..], seen, cap, threshold, taken) == Scan(entries[k + 1..], seen, cap, threshold, taken)
  {
    assert entries[k..][0] == entries[k] && entries[k..][1..] == entries[k + 1..];
  }

  /** The loop of `fetch_articles`, with the seen set held in a local. It
      returns what `Scan` returns, and the seen set grown by exactly those
      links. */
  method ScanFeed(entries: seq<FeedEntry>, seen0: set<string>, cap: Option<int>, threshold: int)
    returns (articles: seq<Article>, seen: set<string>)
    ensures articles == Scan(entries, seen0, cap, threshold, 0)
    ensures seen == seen0 + Links(articles)
  {
    seen := seen0;
    articles := [];
    var k := 0;
    while k < |entries|
      invariant 0 <= k <= |entries|
      invariant seen == seen0 + Links(articles)
      invariant articles + Scan(entries[k..], seen, cap, threshold, |articles|) == Scan(entries, seen0, cap, threshold, 0)
    {
      var entry := entries[k];
      var article := ToArticle(entry);
      var taken := |articles|;
      if article.link !in seen && WithinTimeRange(entry, threshold) {
        LinksAppend(articles, article);
        if cap.Some? && taken + 1 >= cap.value {
          ScanTakesLast(entries, k, seen, cap, threshold, articles);
          articles := articles + [article];
          seen := seen + {article.link};
          return;
        }
        var articles', seen' := articles + [article], seen + {article.link};
        ScanTakes(entries, k, seen, cap, threshold, articles, articles', seen');
        articles, seen := articles', seen';
      } else {
        ScanSkips(entries, k, seen, cap, threshold, taken);
      }
      k := k + 1;
    }
    assert entries[k..] == [];
  }

  /** No returned link was seen before, and none is returned twice. */
  lemma {:induction false} ScanReturnsUnseenOnce(entries: seq<FeedEntry>, seen: set<string>, cap: Option<int>, threshold: int, taken: nat)
    ensures forall a :: a in Scan(entries, seen, cap, threshold, taken) ==> a.link !in seen
    ensures NoDup(LinksOf(Scan(entries, seen, cap, threshold, taken)))
  {
    if |entries| > 0 {
      var e := entries[0];
      if e.link !in seen && WithinTimeRange(e, threshold) {
        if !(cap.Some? && taken + 1 >= cap.value) {
          var rest := Scan(entries[1..], seen + {e.link}, cap, threshold, taken + 1);
          ScanReturnsUnseenOnce(entries[1..], seen + {e.link}, cap, threshold, taken + 1);
          var r := [ToArticle(e)] + rest;
          forall i, j | 0 <= i < j < |r|
            ensures LinksOf(r)[i] != LinksOf(r)[j]
          {
            assert r[j] == rest[j - 1];
            if i > 0 {
              assert r[i] == rest[i - 1];
            } else {
              assert rest[j - 1] in rest;
            }
          }
        }
      } else {
        ScanReturnsUnseenOnce(entries[1..], seen, cap, threshold, taken);
      }
    }
  }

  /** `r` is made of articles of entries that pass the time window, taken in
      feed order. */
  ghost predicate TakenInOrder(r: seq<Article>, entries: seq<FeedEntry>, threshold: int)
    decreases |entries|
  {
    if |r| == 0 then true
    else if |entries| == 0 then false
    else
      || (WithinTimeRange(entries[0], threshold) && r[0] == ToArticle(entries[0]) && TakenInOrder(r[1..], entries[1..], threshold))
      || TakenInOrder(r, entries[1..], threshold)
  }

  /** The result keeps feed order and only holds entries inside the time window. */
  lemma {:induction false} ScanKeepsFeedOrder(entries: seq<FeedEntry>, seen: set<string>, cap: Option<int>, threshold: int, taken: nat)
    ensures TakenInOrder(Scan(entries, seen, cap, threshold, taken), entries, threshold)
  {
    if |entries| > 0 {
      var e := entries[0];
      if e.link !in seen && WithinTimeRange(e, threshold) {
        if cap.Some? && taken + 1 >= cap.value {
          assert [ToArticle(e)][1..] == [];
        } else {
          ScanKeepsFeedOrder(entries[1..], seen + {e.link}, cap, threshold, taken + 1);
          var r := [ToArticle(e)] + Scan(entries[1..], seen + {e.link}, cap, threshold, taken + 1);
          assert r[1..] == Scan(entries[1..], seen + {e.link}, cap, threshold, taken + 1);
        }
      } else {
        ScanKeepsFeedOrder(entries[1..], seen, cap, threshold, taken);
      }
    }
  }

  /** Every article of an in-order selection comes from an entry inside the window. */
  lemma {:induction false} TakenInOrderFromWindow(r: seq<Article>, entries: seq<FeedEntry>, threshold: int, i: nat)
    requires TakenInOrder(r, entries, threshold) && i < |r|
    ensures exists j :: 0 <= j < |entries| && WithinTimeRange(entries[j], threshold) && r[i] == ToArticle(entries[j])
    decreases |entries|
  {
    if WithinTimeRange(entries[0], threshold) && r[0] == ToArticle(entries[0]) && TakenInOrder(r[1..], entries[1..], threshold) {
      if i == 0 {
        assert WithinTimeRange(entries[0], threshold) && r[i] == ToArticle(entries[0]);
      } else {
        TakenInOrderFromWindow(r[1..], entries[1..], threshold, i - 1);
        var j :| 0 <= j < |entries[1..]| && WithinTimeRange(entries[1..][j], threshold) && r[1..][i - 1] == ToArticle(entries[1..][j]);
        assert entries[j + 1] == entries[1..][j];
      }
    } else {
      TakenInOrderFromWindow(r, entries[1..], threshold, i);
      var j :| 0 <= j < |entries[1..]| && WithinTimeRange(entries[1..][j], threshold) && r[i] == ToArticle(entries[1..][j]);
      assert entries[j + 1] == entries[1..][j];
    }
  }

  /** A link whose entries all fall outside the time window is not returned,
      so it does not join the seen set. */
  lemma {:induction false} RejectedStayUnseen(entries: seq<FeedEntry>, seen: set<string>, cap: Option<int>, threshold: int, taken: nat, link: string)
    requires forall j :: 0 <= j < |entries| && entries[j].link == link ==> !WithinTimeRange(entries[j], threshold)
    ensures link !in Links(Scan(entries, seen, cap, threshold, taken))
  {
    var r := Scan(entries, seen, cap, threshold, taken);
    ScanKeepsFeedOrder(entries, seen, cap, threshold, taken);
    forall i | 0 <= i < |r|
      ensures r[i].link != link
    {
      TakenInOrderFromWindow(r, entries, threshold, i);
      var j :| 0 <= j < |entries| && WithinTimeRange(entries[j], threshold) && r[i] == ToArticle(entries[j]);
      assert r[i].link == entries[j].link;
    }
  }

  function Max(a: int, b: int): int
  {
    if a < b then b else a
  }

  /** With a cap, the loop never takes more articles than the cap allows; a
      cap below one still lets the first acceptable entry through. */
  lemma {:induction false} ScanRespectsCap(entries: seq<FeedEntry>, seen: set<string>, cap: Option<int>, threshold: int, taken: nat)
    ensures cap.Some? ==> taken + |Scan(entries, seen, cap, threshold, taken)| <= Max(cap.value, taken + 1)
  {
    if |entries| > 0 {
      var e := entries[0];
      if e.link !in seen && WithinTimeRange(e, threshold) {
        if !(cap.Some? && taken + 1 >= cap.value) {
          ScanRespectsCap(entries[1..], seen + {e.link}, cap, threshold, taken + 1);
        }
      } else {
        ScanRespectsCap(entries[1..], seen, cap, threshold, taken);
      }
    }
  }

  /** Unless the cap stopped the loop, every unseen entry inside the window
      had its link returned. */
  lemma {:induction false} ScanTakesEveryNewEntry(entries: seq<FeedEntry>, seen: set<string>, cap: Option<int>, threshold: int, taken: nat)
    requires cap.None? || taken + |Scan(entries, seen, cap, threshold, taken)| < cap.value
    ensures forall j :: (0 <= j < |entries| && entries[j].link !in seen && WithinTimeRange(entries[j], threshold)
      ==> entries[j].link in Links(Scan(entries, seen, cap, threshold, taken)))
  {
    if |entries| > 0 {
      var e := entries[0];
      var r := Scan(entries, seen, cap, threshold, taken);
      if e.link !in seen && WithinTimeRange(e, threshold) {
        var rest := Scan(entries[1..], seen + {e.link}, cap, threshold, taken + 1);
        assert r == [ToArticle(e)] + rest;
        ScanTakesEveryNewEntry(entries[1..], seen + {e.link}, cap, threshold, taken + 1);
        forall j | 0 <= j < |entries| && entries[j].link !in seen && WithinTimeRange(entries[j], threshold)
          ensures entries[j].link in Links(r)
        {
          if entries[j].link == e.link {
            assert r[0].link == e.link;
          } else {
            assert entries[j] == entries[1..][j - 1];
            var i :| 0 <= i < |rest| && rest[i].link == entries[j].link;
            assert r[i + 1] == rest[i];
          }
        }
      } else {
        ScanTakesEveryNewEntry(entries[1..], seen, cap, threshold, taken);
        forall j | 0 <= j < |entries| && entries[j].link !in seen && WithinTimeRange(entries[j], threshold)
          ensures entries[j].link in Links(r)
        {
          assert entries[j] == entries[1..][j - 1];
        }
      }
    }
  }

  /** The state file: `None` when it does not exist; a file without a
      `seen_links` key has `seenLinks == None`. */
  datatype SeenFile = SeenFile(seenLinks: Option<seq<string>>)

  /** `_load_seen_articles`. */
  function LoadSeen(file: Option<SeenFile>): (r: set<string>)
    ensures file.None? ==> r == {}
    ensures file.Some? && file.value.seenLinks.None? ==> r == {}
    ensures file.Some? && file.value.seenLinks.Some? ==> (forall l :: l in r <==> l in file.value.seenLinks.value)
  {
    match file
    case None => {}
    case Some(f) => Elems(f.seenLinks.GetOr([]))
  }

  /** `list(s)`: every member of the set once, in some order. */
  method ListOfSet(s: set<string>) returns (xs: seq<string>)
    ensures NoDup(xs) && Elems(xs) == s && |xs| == |s|
  {
    xs := [];
    var rest := s;
    while rest != {}
      invariant Elems(xs) + rest == s
      invariant Elems(xs) !! rest
      invariant NoDup(xs)
      decreases |rest|
    {
      var x :| x in rest;
      AppendNew(xs, x);
      xs := xs + [x];
      rest := rest - {x};
    }
    NoDupCard(xs);
  }

  /** Appending an element not yet listed keeps the list duplicate-free. */
  lemma AppendNew(xs: seq<string>, x: string)
    requires NoDup(xs) && x !in Elems(xs)
    ensures NoDup(xs + [x]) && Elems(xs + [x]) == Elems(xs) + {x}
  {
    var r := xs + [x];
    assert r[|xs|] == x;
    forall i | 0 <= i < |xs|
      ensures r[i] == xs[i] && xs[i] in Elems(xs)
    {
    }
  }

  /** The reader: the seen set it holds in memory and the state file it
      loads that set from and saves it to. */
  class Reader {
    var seenArticles: set<string>
    var stateFile: Option<SeenFile>

    /** `__init__`: the seen set is whatever the state file holds. */
    constructor(stateFile: Option<SeenFile>)
      ensures this.stateFile == stateFile && seenArticles == LoadSeen(stateFile)
    {
      this.stateFile := stateFile;
      seenArticles := LoadSeen(stateFile);
    }

    /** `_save_seen_articles`: the file is replaced by one holding each seen
        link once, so loading it back gives the same set. */
    method SaveSeenArticles()
      modifies this
      ensures seenArticles == old(seenArticles)
      ensures stateFile.Some? && stateFile.value.seenLinks.Some?
      ensures NoDup(stateFile.value.seenLinks.value) && |stateFile.value.seenLinks.value| == |seenArticles|
      ensures LoadSeen(stateFile) == seenArticles
    {
      var links := ListOfSet(seenArticles);
      stateFile := Some(SeenFile(Some(links)));
    }

    /** `fetch_articles` over the entries the feed gave, at the instant `now`
        (in seconds). The result is `Scan` of the whole feed, the seen set
        grows by exactly the returned links, and the file is saved only when
        something was returned. */
    method FetchArticles(entries: seq<FeedEntry>, maxArticles: Option<int>, maxHours: int, now: int) returns (articles: seq<Article>)
      modifies this
      ensures articles == Scan(entries, old(seenArticles), maxArticles, Threshold(now, maxHours), 0)
      ensures seenArticles == old(seenArticles) + Links(articles)
      ensures |articles| > 0 ==> stateFile.Some? && LoadSeen(stateFile) == seenArticles
      ensures |articles| == 0 ==> stateFile == old(stateFile)
    {
      var seen;
      articles, seen := ScanFeed(entries, seenArticles, maxArticles, Threshold(now, maxHours));
      seenArticles := seen;
      if |articles| > 0 {
        SaveSeenArticles();
      }
    }
  }
}
