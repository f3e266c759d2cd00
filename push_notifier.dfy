/** The notifier: the message body for one article, the digest that packs
    every article of a run into one message, and the success test applied to
    the push service's reply. */
module PushNotifier {
  import opened Text
  import opened Common
  import opened Noise

  /** The article dictionary as the notifier reads it. `None` stands for a
      missing key; `categories` is `[]` when the key is missing. The noise
      level is kept as text, since the notifier has a branch for levels it
      does not know. */
  datatype PushArticle = PushArticle(
    title: string,
    link: string,
    author: Option<string>,
    published: Option<string>,
    summary: Option<string>,
    categories: seq<string>,
    noiseType: Option<string>,
    noiseLevel: Option<string>)

  /** `_get_noise_type_name`'s table. */
  const NoiseTypeNames: map<string, string> := map[
    "招聘" := "招聘广告",
    "带货" := "产品推广",
    "广告" := "商业广告",
    "课程" := "付费课程",
    "社群" := "社群推广",
    "活动推广" := "活动推广"
  ]

  /** `_get_noise_type_name`: the display name of a listed type, otherwise
      the type itself. */
  function NoiseTypeName(noiseType: string): (r: string)
    ensures noiseType in NoiseTypeNames ==> r == NoiseTypeNames[noiseType]
    ensures noiseType !in NoiseTypeNames ==> r == noiseType
  {
    if noiseType in NoiseTypeNames then NoiseTypeNames[noiseType] else noiseType
  }

  /** The types with a display name are exactly the advertising types, the
      ones the classifiers give the level `noise`. */
  lemma NamedTypesAreAdvertising(noiseType: string)
    ensures noiseType in NoiseTypeNames <==> NoiseLevelOf(noiseType) == Noise
  {
  }

  /** How an f-string renders a value that is a string or `None`. */
  function Shown(o: Option<string>): string
  {
    match o
    case Some(s) => s
    case None => "None"
  }

  /** The name the `noise` banner shows: `type_names.get(None, None)` is
      `None`, which renders as `"None"`. */
  function NoiseName(noiseType: Option<string>): string
  {
    match noiseType
    case Some(t) => NoiseTypeName(t)
    case None => "None"
  }

  function SummaryText(a: PushArticle): string
  {
    a.summary.GetOr("无总结")
  }

  /** `noise_level in [None, 'light']`: an article pushed with its full summary. */
  predicate IsNormal(a: PushArticle)
  {
    a.noiseLevel.None? || a.noiseLevel.value == "light"
  }

  /** A level with its own branch: normal, `noise` or `pr`. */
  predicate Recognised(a: PushArticle)
  {
    IsNormal(a) || a.noiseLevel == Some("noise") || a.noiseLevel == Some("pr")
  }

  const TagMark: string := "🏷️ "
  const BannerHead: string := "⚠️ 本文识别为【"
  const BannerTail: string := "】类型，仅推送关键要点：\n\n"

  function BannerFor(name: string): string
  {
    BannerHead + name + BannerTail
  }

  /** The warning line: the mapped name for `noise`, the raw type for `pr`,
      nothing for any other level. */
  function Banner(a: PushArticle): string
  {
    if a.noiseLevel == Some("noise") then BannerFor(NoiseName(a.noiseType))
    else if a.noiseLevel == Some("pr") then BannerFor(Shown(a.noiseType))
    else ""
  }

  /** The banner appears exactly for the levels `noise` and `pr`. */
  lemma BannerRule(a: PushArticle)
    ensures Banner(a) != "" <==> (a.noiseLevel == Some("noise") || a.noiseLevel == Some("pr"))
    ensures a.noiseLevel == Some("noise") ==> Banner(a) == BannerFor(NoiseName(a.noiseType))
    ensures a.noiseLevel == Some("pr") ==> Banner(a) == BannerFor(Shown(a.noiseType))
  {
  }

  /** The category text of a single message: the tags joined by `、`, or
      `未分类` when there are none. No tag is lost, and the text starts with
      the first tag. */
  function CategoryText(categories: seq<string>): (r: string)
    ensures |categories| == 0 ==> r == "未分类"
    ensures |categories| > 0 ==> r == Join(categories, "、") && categories[0] <= r
    ensures forall k :: 0 <= k < |categories| ==> Contains(r, categories[k])
  {
    JoinContainsEach(categories, "、");
    if |categories| > 0 then Join(categories, "、") else "未分类"
  }

  function LinkMarkdown(link: string): string
  {
    "[查看原文](" + link + ")"
  }

  /** `_format_content`: a recognised level gets the tag line, the banner a
      noise or announcement article gets, the summary and the link; any other
      level gets the summary and the link only. */
  function FormatContent(a: PushArticle): (r: string)
    ensures r == (if Recognised(a) then TagMark + CategoryText(a.categories) + "\n\n" else "")
      + Banner(a) + SummaryText(a) + "\n\n" + LinkMarkdown(a.link)
  {
    var tags := TagMark + CategoryText(a.categories) + "\n\n";
    var tail := SummaryText(a) + "\n\n" + LinkMarkdown(a.link);
    if IsNormal(a) then tags + tail
    else if a.noiseLevel == Some("noise") then tags + BannerFor(NoiseName(a.noiseType)) + tail
    else if a.noiseLevel == Some("pr") then tags + BannerFor(Shown(a.noiseType)) + tail
    else tail
  }

  /** Every single message ends with the link to the original. */
  lemma FormatContentEndsWithLink(a: PushArticle)
    ensures exists head :: FormatContent(a) == head + LinkMarkdown(a.link)
  {
    var r := FormatContent(a);
    var head := (if Recognised(a) then TagMark + CategoryText(a.categories) + "\n\n" else "") + Banner(a) + SummaryText(a) + "\n\n";
    assert r == head + LinkMarkdown(a.link);
  }

  /** `author and author != 'Unknown'`. */
  predicate AuthorShown(author: Option<string>)
  {
    author.Some? && author.value != "" && author.value != "Unknown"
  }

  /** The title of a single message, with `formatTime` standing for
      `_format_published_time`: it ends with the article's title followed by
      the formatted time, and what stands before them is the author in 【】
      when one is shown, otherwise the configured prefix and a space. */
  function SingleTitle(a: PushArticle, titlePrefix: string, formatTime: string -> string): (r: string)
    ensures var tail := a.title + formatTime(a.published.GetOr(""));
      |tail| <= |r| && r[|r| - |tail|..] == tail
    ensures var tail := a.title + formatTime(a.published.GetOr(""));
      AuthorShown(a.author) ==> |tail| <= |r| && r[..|r| - |tail|] == "【" + a.author.value + "】"
    ensures var tail := a.title + formatTime(a.published.GetOr(""));
      !AuthorShown(a.author) ==> |tail| <= |r| && r[..|r| - |tail|] == titlePrefix + " "
  {
    var time := formatTime(a.published.GetOr(""));
    var head := if AuthorShown(a.author) then "【" + a.author.value + "】" else titlePrefix + " ";
    SplitAtTail(head, a.title + time);
    head + (a.title + time)
  }

  /** A JSON value as `response.json()` gives it. */
  datatype Json =
    | JNull
    | JBool(b: bool)
    | JInt(i: int)
    | JFloat(f: real)
    | JString(s: string)
    | JArray(items: seq<Json>)
    | JObject(fields: map<string, Json>)

  /** The outcome of one `requests.post`: a response with its status code and
      its body (`None` when the body is not JSON), or an exception. */
  datatype PostOutcome =
    | HttpResponse(status: int, body: Option<Json>)
    | PostRaised(error: string)

  /** Python's `value == n` for a JSON value and an `int`: `bool` and `float`
      compare numerically, every other kind is unequal. */
  function PyEqualsInt(j: Json, n: int): bool
  {
    match j
    case JBool(b) => (if b then 1 else 0) == n
    case JInt(i) => i == n
    case JFloat(f) => f == n as real
    case _ => false
  }

  /** `_send_request`: success needs status 200 and a JSON object whose
      `code` is zero; a missing code, a body that is not an object or not
      JSON, and an exception are all failures. */
  function SendRequest(o: PostOutcome): (ok: bool)
    ensures ok <==> (o.HttpResponse? && o.status == 200 && o.body.Some? && o.body.value.JObject?
      && "code" in o.body.value.fields && o.body.value.fields["code"] in {JInt(0), JFloat(0.0), JBool(false)})
  {
    match o
    case PostRaised(_) => false
    case HttpResponse(status, body) =>
      if status != 200 then false
      else
        match body
        case None => false
        case Some(j) =>
          match j
          case JObject(fields) => "code" in fields && PyEqualsInt(fields["code"], 0)
          case _ => false
  }

  /** `send_single_article`, with `post` standing for the push service. */
  function SendSingleArticle(a: PushArticle, titlePrefix: string, formatTime: string -> string,
                             post: (string, string) -> PostOutcome): (ok: bool)
    ensures ok <==> SendRequest(post(SingleTitle(a, titlePrefix, formatTime), FormatContent(a)))
  {
    SendRequest(post(SingleTitle(a, titlePrefix, formatTime), FormatContent(a)))
  }

  // The digest.

  const Separator: string := "━━━━━━━━━━━━━━━━━━━━━━\n\n"
  const HeaderCount: string := "📰 本次更新：共 "
  const HeaderCountTail: string := " 篇文章\n"
  const HeaderClock: string := "🕐 更新时间："
  const LinkLineHead: string := "🔗 [查看原文]("
  const FooterHead: string := "📊 数据统计：\n"
  const FooterNormal: string := "• 正常文章："
  const FooterSimplified: string := "• 简化摘要："
  const FooterUnit: string := " 篇\n"

  /** The author in brackets when it is shown, else nothing. */
  function AuthorMark(a: PushArticle): (r: string)
    ensures r != "" <==> AuthorShown(a.author)
  {
    if AuthorShown(a.author) then "【" + a.author.value + "】" else ""
  }

  function Heading(a: PushArticle, formatTime: string -> string): string
  {
    AuthorMark(a) + a.title + formatTime(a.published.GetOr(""))
  }

  /** The tag line of a digest section, present only when there are tags. */
  function TagLine(a: PushArticle): (r: string)
    ensures r != "" <==> |a.categories| > 0
  {
    if |a.categories| > 0 then TagMark + Join(a.categories, "、") + "\n\n" else ""
  }

  /** The text of a digest section: the summary, after the banner for a
      noise or announcement article; nothing for a level without a branch. */
  function Body(a: PushArticle): (r: string)
    ensures r == "" <==> !Recognised(a)
    ensures Recognised(a) ==> r == Banner(a) + SummaryText(a) + "\n\n"
  {
    if IsNormal(a) then SummaryText(a) + "\n\n"
    else if a.noiseLevel == Some("noise") then BannerFor(NoiseName(a.noiseType)) + SummaryText(a) + "\n\n"
    else if a.noiseLevel == Some("pr") then BannerFor(Shown(a.noiseType)) + SummaryText(a) + "\n\n"
    else ""
  }

  function LinkLine(link: string): string
  {
    LinkLineHead + link + ")\n\n"
  }

  function SectionHead(i: nat): string
  {
    "### " + NatToString(i) + ". "
  }

  /** Section `i` (counted from 1) of the digest. */
  function Section(i: nat, a: PushArticle, formatTime: string -> string): string
  {
    SectionHead(i) + Heading(a, formatTime) + "\n" + TagLine(a) + Body(a) + LinkLine(a.link) + Separator
  }

  /** Section `i` starts with `### i. ` and ends with the link line and the
      separator; in between stand the heading, the tag line and the text. */
  lemma SectionShape(i: nat, a: PushArticle, formatTime: string -> string)
    ensures Section(i, a, formatTime)
      == SectionHead(i) + (Heading(a, formatTime) + "\n" + TagLine(a) + Body(a)) + (LinkLine(a.link) + Separator)
    ensures SectionHead(i) <= Section(i, a, formatTime)
  {
    var h := SectionHead(i);
    var hd, tg, bd := Heading(a, formatTime), TagLine(a), Body(a);
    var ll := LinkLine(a.link);
    var m := hd + "\n" + tg + bd;
    assert Section(i, a, formatTime) == h + hd + "\n" + tg + bd + ll + Separator;
    Assoc(h, hd, "\n");
    Assoc(h, hd + "\n", tg);
    Assoc(h, hd + "\n" + tg, bd);
    Assoc(h + m, ll, Separator);
    PrefixOfAppend(h, h, m + (ll + Separator));
  }

  /** The sections of all the articles, numbered from 1. */
  function Sections(articles: seq<PushArticle>, formatTime: string -> string): string
  {
    if |articles| == 0 then ""
    else Sections(articles[..|articles| - 1], formatTime) + Section(|articles|, articles[|articles| - 1], formatTime)
  }

  /** The sections of a prefix of the articles begin the sections of all of them. */
  lemma {:induction false} SectionsPrefix(articles: seq<PushArticle>, formatTime: string -> string, k: nat)
    requires k <= |articles|
    ensures Sections(articles[..k], formatTime) <= Sections(articles, formatTime)
    decreases |articles| - k
  {
    if k < |articles| {
      var init := articles[..|articles| - 1];
      assert init[..k] == articles[..k];
      SectionsPrefix(init, formatTime, k);
      PrefixOfAppend(Sections(articles[..k], formatTime), Sections(init, formatTime),
        Section(|articles|, articles[|articles| - 1], formatTime));
    } else {
      assert articles[..k] == articles;
    }
  }

  /** `normal_count`. */
  function NormalCount(articles: seq<PushArticle>): (n: nat)
    ensures n <= |articles|
  {
    if |articles| == 0 then 0
    else NormalCount(articles[..|articles| - 1]) + (if IsNormal(articles[|articles| - 1]) then 1 else 0)
  }

  ghost function NormalPositions(articles: seq<PushArticle>): set<nat>
  {
    set i: nat | i < |articles| && IsNormal(articles[i])
  }

  ghost function SimplifiedPositions(articles: seq<PushArticle>): set<nat>
  {
    set i: nat | i < |articles| && !IsNormal(articles[i])
  }

  /** Adding an article adds its position to one of the two position sets. */
  lemma NormalPositionsStep(articles: seq<PushArticle>)
    requires |articles| > 0
    ensures var n := |articles| - 1;
      NormalPositions(articles) == NormalPositions(articles[..n]) + (if IsNormal(articles[n]) then {n} else {})
  {
    var n := |articles| - 1;
    forall i: nat
      ensures i in NormalPositions(articles) <==>
        i in NormalPositions(articles[..n]) + (if IsNormal(articles[n]) then {n} else {})
    {
      if i < n {
        assert articles[..n][i] == articles[i];
      }
    }
  }

  /** One step of the positions of the simplified articles. */
  lemma SimplifiedPositionsStep(articles: seq<PushArticle>)
    requires |articles| > 0
    ensures var n := |articles| - 1;
      SimplifiedPositions(articles) == SimplifiedPositions(articles[..n]) + (if IsNormal(articles[n]) then {} else {n})
  {
    var n := |articles| - 1;
    forall i: nat
      ensures i in SimplifiedPositions(articles) <==>
        i in SimplifiedPositions(articles[..n]) + (if IsNormal(articles[n]) then {} else {n})
    {
      if i < n {
        assert articles[..n][i] == articles[i];
      }
    }
  }

  /** `normal_count` counts the articles with no level or the level `light`,
      and `noise_count` the others, so the two counts of the footer split the
      articles between them. */
  lemma {:induction false} NormalCountCounts(articles: seq<PushArticle>)
    ensures NormalCount(articles) == |NormalPositions(articles)|
    ensures |articles| - NormalCount(articles) == |SimplifiedPositions(articles)|
  {
    if |articles| > 0 {
      var n := |articles| - 1;
      var init := articles[..n];
      NormalCountCounts(init);
      NormalPositionsStep(articles);
      SimplifiedPositionsStep(articles);
      assert n !in NormalPositions(init) && n !in SimplifiedPositions(init);
    } else {
      assert NormalPositions(articles) == {};
      assert SimplifiedPositions(articles) == {};
    }
  }

  function Header(count: nat, updateTime: string): string
  {
    HeaderCount + NatToString(count) + HeaderCountTail + HeaderClock + updateTime + "\n\n" + Separator
  }

  function Footer(normal: nat, simplified: nat): string
  {
    FooterHead + FooterNormal + NatToString(normal) + FooterUnit + FooterSimplified + NatToString(simplified) + FooterUnit
  }

  function BatchTitle(titlePrefix: string, count: nat): string
  {
    titlePrefix + " 公众号摘要汇总（" + NatToString(count) + "篇）"
  }

  /** The digest's message body: header, one section per article, statistics. */
  function BatchContent(articles: seq<PushArticle>, updateTime: string, formatTime: string -> string): string
  {
    Header(|articles|, updateTime) + Sections(articles, formatTime)
      + Footer(NormalCount(articles), |articles| - NormalCount(articles))
  }

  /** The article count can be read back from the digest's title. */
  lemma BatchTitleCount(titlePrefix: string, m: nat, n: nat)
    ensures BatchTitle(titlePrefix, m) == BatchTitle(titlePrefix, n) ==> m == n
  {
    if BatchTitle(titlePrefix, m) == BatchTitle(titlePrefix, n) {
      var p := titlePrefix + " 公众号摘要汇总（";
      var dm := NatToString(m);
      var dn := NatToString(n);
      assert BatchTitle(titlePrefix, m) == p + dm + "篇）";
      assert BatchTitle(titlePrefix, n) == p + dn + "篇）";
      assert |dm| == |dn|;
      assert dm == BatchTitle(titlePrefix, m)[|p|..|p| + |dm|];
      assert dn == BatchTitle(titlePrefix, n)[|p|..|p| + |dn|];
      NatToStringInjective(m, n);
    }
  }

  /** Appending one article appends its section. */
  lemma SectionsStep(articles: seq<PushArticle>, formatTime: string -> string, k: nat)
    requires k < |articles|
    ensures Sections(articles[..k + 1], formatTime) == Sections(articles[..k], formatTime) + Section(k + 1, articles[k], formatTime)
  {
    assert articles[..k + 1][..k] == articles[..k];
  }

  /** Article `i` of the list has its section, numbered `i + 1`, in the digest. */
  lemma SectionInDigest(articles: seq<PushArticle>, updateTime: string, formatTime: string -> string, i: nat)
    requires i < |articles|
    ensures Contains(BatchContent(articles, updateTime, formatTime), Section(i + 1, articles[i], formatTime))
  {
    SectionsPrefix(articles, formatTime, i + 1);
    SectionsStep(articles, formatTime, i);
    var all := Sections(articles, formatTime);
    var before := Sections(articles[..i], formatTime);
    var s := Section(i + 1, articles[i], formatTime);
    assert before + s <= all;
    var rest := all[|before + s|..];
    PrefixSplit(before + s, all);
    var header := Header(|articles|, updateTime);
    var footer := Footer(NormalCount(articles), |articles| - NormalCount(articles));
    assert BatchContent(articles, updateTime, formatTime) == header + all + footer;
    Assoc(header, before, s);
    Assoc(header, before + s, rest);
    Assoc(header + before + s, rest, footer);
    ContainsMiddle(header + before, s, rest + footer);
  }

  /** One pass of the loop of `send_articles_batch`: the lines of the
      section for article `a`, numbered `i`. */
  method ComposeSection(i: nat, a: PushArticle, formatTime: string -> string) returns (section: string)
    ensures section == Section(i, a, formatTime)
  {
    var tagLine := "";
    if |a.categories| > 0 {
      tagLine := TagMark + Join(a.categories, "、") + "\n\n";
    }
    var body := "";
    if IsNormal(a) {
      body := SummaryText(a) + "\n\n";
    } else if a.noiseLevel == Some("noise") {
      body := BannerFor(NoiseName(a.noiseType)) + SummaryText(a) + "\n\n";
    } else if a.noiseLevel == Some("pr") {
      body := BannerFor(Shown(a.noiseType)) + SummaryText(a) + "\n\n";
    }
    section := SectionHead(i) + Heading(a, formatTime) + "\n" + tagLine + body + LinkLine(a.link) + Separator;
  }

  /** `send_articles_batch`, with `updateTime` standing for the clock reading,
      `formatTime` for `_format_published_time` and `post` for the push
      service. An empty list sends nothing and fails; otherwise `request` is
      the title and body sent and the result is the success test on the reply. */
  method SendArticlesBatch(articles: seq<PushArticle>, titlePrefix: string, updateTime: string,
                           formatTime: string -> string, post: (string, string) -> PostOutcome)
    returns (ok: bool, request: Option<(string, string)>)
    ensures |articles| == 0 ==> !ok && request == None
    ensures |articles| > 0 ==> request == Some((BatchTitle(titlePrefix, |articles|), BatchContent(articles, updateTime, formatTime)))
    ensures ok <==> request.Some? && SendRequest(post(request.value.0, request.value.1))
  {
    if |articles| == 0 {
      return false, None;
    }
    var normalCount := NormalCount(articles);
    var noiseCount := |articles| - normalCount;
    var title := BatchTitle(titlePrefix, |articles|);
    var content := Header(|articles|, updateTime);
    var k := 0;
    while k < |articles|
      invariant 0 <= k <= |articles|
      invariant content == Header(|articles|, updateTime) + Sections(articles[..k], formatTime)
    {
      var section := ComposeSection(k + 1, articles[k], formatTime);
      SectionsStep(articles, formatTime, k);
      Assoc(Header(|articles|, updateTime), Sections(articles[..k], formatTime), section);
      content := content + section;
      k := k + 1;
    }
    assert articles[..k] == articles;
    content := content + Footer(normalCount, noiseCount);
    assert content == BatchContent(articles, updateTime, formatTime);
    request := Some((title, content));
    ok := SendRequest(post(title, content));
  }
}
