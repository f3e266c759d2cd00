/** `AISummarizer`: the prompt for a full summary (a default or a caller's
    template), the handling of the generation outcome, the abbreviated
    summary of a noise article, and the batch loop that attaches a summary
    to every article. The text-generation service is a parameter. */
module AiSummarizer {
  import opened Text
  import opened Common
  import opened Noise
  import opened AiResponse

  // ---------------------------------------------------------------------
  // generate_summary
  // ---------------------------------------------------------------------

  /** A prompt template as `str.format` reads it: literal text and the two
      named fields `{title}` and `{content}`. */
  datatype TemplatePiece = Literal(text: string) | TitleField | ContentField

  type PromptTemplate = seq<TemplatePiece>

  const DefaultTemplateHead: string := "请将以下公众号文章生成总结，要求：\n\n**分类标签**：\n1. 首先输出 3-5 个分类标签（关键词）\n2. 使用简洁的中文词汇（2-4个字）\n3. 标签之间用顿号分隔\n4. 标签应该反映文章的核心主题\n\n**文章总结**：\n5. 结构化输出：使用 Emoji 图标作为段落标记（如🎯、🔄、🤖等）\n6. 分段清晰：每个大段有明确的主题标题\n7. 深度解析：不是简单摘要点，而是保留关键信息和数据的深度解析\n8. 格式规范：\n   - 使用分级标题（一、二、三）\n   - 关键数据用加粗标记\n   - 包含具体案例和细节\n9. 内容长度：控制在500字以内\n10. 补充细节：最后补充关键细节和背景信息\n\n**输出格式**：\n【标签】标签1、标签2、标签3\n\n【总结】\n（文章总结内容...）\n\n---\n\n文章标题："
  const DefaultTemplateBody: string := "\n\n文章内容：\n"
  const DefaultTemplateTail: string := "\n\n请按格式生成："

  /** The template used when the caller gives none. */
  const DefaultTemplate: PromptTemplate :=
    [Literal(DefaultTemplateHead), TitleField, Literal(DefaultTemplateBody), ContentField, Literal(DefaultTemplateTail)]

  /** How much of the article body goes into the prompt. */
  const ContentLimit: nat := 4000

  function LiteralLength(t: PromptTemplate): nat
  {
    if |t| == 0 then 0 else (if t[0].Literal? then |t[0].text| else 0) + LiteralLength(t[1..])
  }

  function FieldCount(t: PromptTemplate, field: TemplatePiece): nat
  {
    if |t| == 0 then 0 else (if t[0] == field then 1 else 0) + FieldCount(t[1..], field)
  }

  function PieceText(piece: TemplatePiece, title: string, content: string): string
  {
    match piece
    case Literal(s) => s
    case TitleField => title
    case ContentField => content
  }

  /** `template.format(title=..., content=...)`: each field is replaced by its value. */
  function Format(t: PromptTemplate, title: string, content: string): string
  {
    if |t| == 0 then "" else PieceText(t[0], title, content) + Format(t[1..], title, content)
  }

  /** The formatted prompt is as long as the literal text plus one copy of a
      value per occurrence of its field. */
  lemma {:induction false} FormatLength(t: PromptTemplate, title: string, content: string)
    ensures |Format(t, title, content)|
      == LiteralLength(t) + FieldCount(t, TitleField) * |title| + FieldCount(t, ContentField) * |content|
  {
    if |t| > 0 {
      FormatLength(t[1..], title, content);
      var ct := FieldCount(t[1..], TitleField);
      var cc := FieldCount(t[1..], ContentField);
      assert |Format(t, title, content)| == |PieceText(t[0], title, content)| + |Format(t[1..], title, content)|;
      match t[0]
      case Literal(_) =>
      case TitleField =>
        MulSucc(ct, |title|);
      case ContentField =>
        MulSucc(cc, |content|);
    }
  }

  /** A nonlinear step kept in a lemma of its own for solver cost. */
  lemma MulSucc(c: nat, n: nat)
    ensures (c + 1) * n == c * n + n
  {
  }

  /** Formatting a template of five pieces. */
  lemma FormatFive(p0: TemplatePiece, p1: TemplatePiece, p2: TemplatePiece, p3: TemplatePiece, p4: TemplatePiece,
                   title: string, content: string)
    ensures Format([p0, p1, p2, p3, p4], title, content)
      == PieceText(p0, title, content) + PieceText(p1, title, content) + PieceText(p2, title, content)
       + PieceText(p3, title, content) + PieceText(p4, title, content)
  {
    FormatFiveNested(p0, p1, p2, p3, p4, title, content);
    var s0, s1, s2 := PieceText(p0, title, content), PieceText(p1, title, content), PieceText(p2, title, content);
    var s3, s4 := PieceText(p3, title, content), PieceText(p4, title, content);
    Assoc(s0 + s1 + s2, s3, s4);
    Assoc(s0 + s1, s2, s3 + s4);
    Assoc(s0, s1, s2 + (s3 + s4));
  }

  /** `FormatFive` with the concatenation nested to the right. */
  lemma FormatFiveNested(p0: TemplatePiece, p1: TemplatePiece, p2: TemplatePiece, p3: TemplatePiece, p4: TemplatePiece,
                         title: string, content: string)
    ensures Format([p0, p1, p2, p3, p4], title, content)
      == PieceText(p0, title, content) + (PieceText(p1, title, content) + (PieceText(p2, title, content)
       + (PieceText(p3, title, content) + PieceText(p4, title, content))))
  {
    var t := [p0, p1, p2, p3, p4];
    assert t == [p0] + ([p1] + ([p2] + ([p3] + [p4])));
    FormatCons(p0, [p1] + ([p2] + ([p3] + [p4])), title, content);
    FormatCons(p1, [p2] + ([p3] + [p4]), title, content);
    FormatCons(p2, [p3] + [p4], title, content);
    FormatCons(p3, [p4], title, content);
    var s4 := PieceText(p4, title, content);
    assert [p4][1..] == [];
    assert Format([p4], title, content) == s4 + "";
    assert s4 + "" == s4;
  }

  /** Formatting a template with one more piece in front. */
  lemma FormatCons(p: TemplatePiece, t: PromptTemplate, title: string, content: string)
    ensures Format([p] + t, title, content) == PieceText(p, title, content) + Format(t, title, content)
  {
    assert ([p] + t)[1..] == t;
  }

  /** The prompt of `generate_summary`. */
  function SummaryPrompt(a: Article, template: Option<PromptTemplate>): string
  {
    Format(template.GetOr(DefaultTemplate), a.title, Take(a.content, ContentLimit))
  }

  /** Whatever the template, the body enters the prompt only through its
      first 4000 characters. */
  lemma SummaryPromptTruncates(a: Article, b: Article, template: Option<PromptTemplate>)
    ensures a.title == b.title && Take(a.content, ContentLimit) == Take(b.content, ContentLimit)
      ==> SummaryPrompt(a, template) == SummaryPrompt(b, template)
  {
  }

  /** Multiplication by a count is monotone (a nonlinear step kept apart). */
  lemma MulMonotone(c: nat, m: nat, n: nat)
    requires m <= n
    ensures c * m <= c * n
  {
    assert c * n == c * m + c * (n - m);
  }

  /** The prompt grows by at most 4000 characters per `{content}` field,
      however long the body is. */
  lemma SummaryPromptBounded(a: Article, template: Option<PromptTemplate>)
    ensures var t := template.GetOr(DefaultTemplate);
      |SummaryPrompt(a, template)| <= LiteralLength(t) + FieldCount(t, TitleField) * |a.title|
        + FieldCount(t, ContentField) * ContentLimit
  {
    var t := template.GetOr(DefaultTemplate);
    FormatLength(t, a.title, Take(a.content, ContentLimit));
    MulMonotone(FieldCount(t, ContentField), |Take(a.content, ContentLimit)|, ContentLimit);
  }

  /** The default prompt carries the title and the opening of the body. */
  lemma DefaultPromptContents(a: Article)
    ensures SummaryPrompt(a, None) == DefaultTemplateHead + a.title + DefaultTemplateBody
      + Take(a.content, ContentLimit) + DefaultTemplateTail
    ensures Contains(SummaryPrompt(a, None), Take(a.content, ContentLimit))
  {
    var body := Take(a.content, ContentLimit);
    FormatFive(Literal(DefaultTemplateHead), TitleField, Literal(DefaultTemplateBody), ContentField,
      Literal(DefaultTemplateTail), a.title, body);
    ContainsMiddle(DefaultTemplateHead + a.title + DefaultTemplateBody, body, DefaultTemplateTail);
  }

  const ApiErrorPrefix: string := "API 错误: "
  const SummaryFailurePrefix: string := "生成摘要失败: "
  const SimpleFailurePrefix: string := "生成简化摘要失败: "

  /** The `try` block of `generate_summary`: a 200 response is parsed; any
      other status gives `API 错误: <code> - <message>`, an exception
      `生成摘要失败: <error>`, both without categories. */
  function SummaryOf(o: GenOutcome): (r: SummaryResult)
    ensures o.Response? && o.statusCode == 200 ==> r == ParseAiResponse(o.text)
    ensures o.Response? && o.statusCode != 200 ==> r == SummaryResult(ApiErrorPrefix + o.code + " - " + o.message, [])
    ensures o.Raised? ==> r == SummaryResult(SummaryFailurePrefix + o.error, [])
  {
    match o
    case Response(status, code, message, text) =>
      if status == 200 then ParseAiResponse(text) else SummaryResult(ApiErrorPrefix + code + " - " + message, [])
    case Raised(e) => SummaryResult(SummaryFailurePrefix + e, [])
  }

  /** `generate_summary`. */
  function GenerateSummary(a: Article, template: Option<PromptTemplate>, generate: string -> GenOutcome): (r: SummaryResult)
    ensures |r.categories| <= 5 && NoDup(r.categories)
    ensures forall k :: 0 <= k < |r.categories| ==> |r.categories[k]| > 0 && NoDelimiter(r.categories[k])
  {
    SummaryOf(generate(SummaryPrompt(a, template)))
  }

  /** A failed call (any status other than 200, or an exception) yields a
      sentinel summary and no categories; a successful one is parsed. */
  lemma FailedCallHasNoCategories(o: GenOutcome)
    ensures !(o.Response? && o.statusCode == 200) ==> SummaryOf(o).categories == []
    ensures !(o.Response? && o.statusCode == 200) ==>
      ApiErrorPrefix <= SummaryOf(o).summary || SummaryFailurePrefix <= SummaryOf(o).summary
  {
  }

  // ---------------------------------------------------------------------
  // generate_simple_summary
  // ---------------------------------------------------------------------

  const SimplePromptHead: string := "请将以下公众号文章提取为关键要点，要求：\n\n1. 提炼3-5个关键要点\n2. 每个要点不超过15字\n3. 严格控制在100字以内\n4. 必须包含以下信息：\n"
  const SimplePromptTitle: string := "\n\n文章标题："
  const SimplePromptBody: string := "\n\n文章内容：\n"
  const SimplePromptTail: string := "\n\n请生成关键要点（列表格式）："

  const SimpleContentLimit: nat := 2000

  /** The prompt of `generate_simple_summary`: the bullet fields for the
      noise type are written into the template before it is formatted with
      the title and the first 2000 characters of the body. */
  function SimplePrompt(a: Article, noiseType: string): string
  {
    var template := [Literal(SimplePromptHead + PointsRequirements(noiseType) + SimplePromptTitle), TitleField,
      Literal(SimplePromptBody), ContentField, Literal(SimplePromptTail)];
    Format(template, a.title, Take(a.content, SimpleContentLimit))
  }

  /** The abbreviated prompt carries the bullet fields of the type (the
      three-placeholder default for a type without its own list) and the
      opening of the body. */
  lemma SimplePromptContents(a: Article, noiseType: string)
    ensures SimplePrompt(a, noiseType) == SimplePromptHead + PointsRequirements(noiseType) + SimplePromptTitle
      + a.title + SimplePromptBody + Take(a.content, SimpleContentLimit) + SimplePromptTail
    ensures Contains(SimplePrompt(a, noiseType), Take(a.content, SimpleContentLimit))
    ensures noiseType !in PointsTable ==> Contains(SimplePrompt(a, noiseType), DefaultPoints)
  {
    var req := PointsRequirements(noiseType);
    var body := Take(a.content, SimpleContentLimit);
    FormatFive(Literal(SimplePromptHead + req + SimplePromptTitle), TitleField, Literal(SimplePromptBody),
      ContentField, Literal(SimplePromptTail), a.title, body);
    ContainsMiddle(SimplePromptHead + req + SimplePromptTitle + a.title + SimplePromptBody, body, SimplePromptTail);
    var p := SimplePromptHead + req;
    Assoc(p, SimplePromptTitle, a.title);
    Assoc(p, SimplePromptTitle + a.title, SimplePromptBody);
    Assoc(p, SimplePromptTitle + a.title + SimplePromptBody, body);
    Assoc(p, SimplePromptTitle + a.title + SimplePromptBody + body, SimplePromptTail);
    ContainsMiddle(SimplePromptHead, req, SimplePromptTitle + a.title + SimplePromptBody + body + SimplePromptTail);
  }

  /** `generate_simple_summary`: the response text itself on success,
      `API 错误: <code>` for another status, and the failure prefix with the
      exception text when the call raises. */
  function SimpleSummaryOf(o: GenOutcome): (s: string)
    ensures o.Response? && o.statusCode == 200 ==> s == o.text
    ensures o.Response? && o.statusCode != 200 ==> s == ApiErrorPrefix + o.code
    ensures o.Raised? ==> s == SimpleFailurePrefix + o.error
  {
    match o
    case Response(status, code, _, text) => if status == 200 then text else ApiErrorPrefix + code
    case Raised(e) => SimpleFailurePrefix + e
  }

  /** A failed simple call (any status other than 200, or an exception)
      returns a text that starts with one of the two error prefixes. */
  lemma SimpleFailedCallIsFlagged(o: GenOutcome)
    ensures o.Response? && o.statusCode != 200 ==> ApiErrorPrefix <= SimpleSummaryOf(o)
    ensures o.Raised? ==> SimpleFailurePrefix <= SimpleSummaryOf(o)
  {
  }

  /** `generate_simple_summary`: the service is asked with the abbreviated
      prompt; on success its text is returned as it is, and a failure is
      reported behind an error prefix. */
  function GenerateSimpleSummary(a: Article, noiseType: string, generate: string -> GenOutcome): (r: string)
    ensures var o := generate(SimplePrompt(a, noiseType));
      o.Response? && o.statusCode == 200 ==> r == o.text
    ensures var o := generate(SimplePrompt(a, noiseType));
      o.Response? && o.statusCode != 200 ==> ApiErrorPrefix <= r
    ensures var o := generate(SimplePrompt(a, noiseType));
      o.Raised? ==> SimpleFailurePrefix <= r
  {
    SimpleFailedCallIsFlagged(generate(SimplePrompt(a, noiseType)));
    SimpleSummaryOf(generate(SimplePrompt(a, noiseType)))
  }

  /** The simple summary depends on the body only through its first 2000
      characters. */
  lemma SimpleSummaryTruncates(a: Article, b: Article, noiseType: string, generate: string -> GenOutcome)
    requires a.title == b.title && Take(a.content, SimpleContentLimit) == Take(b.content, SimpleContentLimit)
    ensures GenerateSimpleSummary(a, noiseType, generate) == GenerateSimpleSummary(b, noiseType, generate)
  {
    assert SimplePrompt(a, noiseType) == SimplePrompt(b, noiseType);
  }

  // ---------------------------------------------------------------------
  // generate_batch_summaries
  // ---------------------------------------------------------------------

  /** An article dictionary that the batch loop updates in place: the entry
      it writes is `summary`. */
  class ArticleRecord {
    const article: Article
    var summary: Option<SummaryResult>

    constructor (a: Article)
      ensures article == a && summary == None
    {
      article := a;
      summary := None;
    }
  }

  /** The summary the `n`-th call of the batch produces for `a`; `generate`
      takes the number of the call and the prompt. */
  function BatchSummary(a: Article, n: nat, generate: (nat, string) -> GenOutcome): SummaryResult
  {
    SummaryOf(generate(n, SummaryPrompt(a, None)))
  }

  /** No later position of the list holds the same dictionary. */
  ghost predicate LastOccurrence(records: seq<ArticleRecord>, i: nat, bound: nat)
    requires i < bound <= |records|
  {
    forall j :: i < j < bound ==> records[j] != records[i]
  }

  /** The loop of `generate_batch_summaries`, for any summariser that is
      given the number of the call and the article: every dictionary of the
      list gets the summary of its call written into it, and the same list,
      in the same order, is returned. A dictionary listed twice keeps the
      summary of its last call. */
  method SummarizeEach(articles: seq<ArticleRecord>, summarize: (nat, Article) -> SummaryResult)
    returns (results: seq<ArticleRecord>)
    modifies articles
    ensures results == articles
    ensures forall i :: 0 <= i < |articles| && LastOccurrence(articles, i, |articles|) ==>
      articles[i].summary == Some(summarize(i, articles[i].article))
  {
    results := [];
    var k := 0;
    while k < |articles|
      invariant 0 <= k <= |articles|
      invariant results == articles[..k]
      invariant forall i :: 0 <= i < k && LastOccurrence(articles, i, k) ==>
        articles[i].summary == Some(summarize(i, articles[i].article))
    {
      var article := articles[k];
      var summary := summarize(k, article.article);
      article.summary := Some(summary);
      forall i | 0 <= i < k && LastOccurrence(articles, i, k + 1)
        ensures articles[i].summary == Some(summarize(i, articles[i].article))
      {
        assert articles[i] != article && LastOccurrence(articles, i, k);
      }
      results := results + [article];
      k := k + 1;
    }
  }

  /** `generate_batch_summaries`: call `k` summarises article `k` with the
      default prompt. */
  method GenerateBatchSummaries(articles: seq<ArticleRecord>, generate: (nat, string) -> GenOutcome)
    returns (results: seq<ArticleRecord>)
    modifies articles
    ensures results == articles
    ensures forall i :: 0 <= i < |articles| && LastOccurrence(articles, i, |articles|) ==>
      articles[i].summary == Some(BatchSummary(articles[i].article, i, generate))
  {
    results := SummarizeEach(articles, (n: nat, a: Article) => BatchSummary(a, n, generate));
  }
}
