/** `AIArticleProcessor`: the keyword pre-check that decides whether an
    article is advertising or an announcement, the choice between the full
    and the abbreviated prompt, prompt truncation, and the handling of the
    text-generation outcome. The service itself is a parameter: a function
    from the prompt to the outcome of the call. */
module AiProcessor {
  import opened Text
  import opened Common
  import opened Noise
  import opened AiResponse

  /** The 带货 keywords of `_default_noise_keywords`, in the five groups the
      source lists them in: prices, units, calls to action, product praise
      and shop terms. */
  const SalesPriceWords: seq<string> := ["元", "块", "毛", "折", "优惠", "限时", "特价", "清仓", "秒杀", "抢购", "购买", "下单", "立减", "满减", "券", "福利", "红包", "补贴"]
  const SalesUnitWords: seq<string> := ["支", "件", "套", "盒", "瓶", "袋", "斤", "克", "ml", "L"]
  /** The calls to action as written: 抢购 is listed here a second time. */
  const SalesActionWordsAsWritten: seq<string> := ["立即抢", "马上抢", "抢购", "速抢", "扫码", "点击购买", "购买链接"]
  const SalesActionWords: seq<string> := ["立即抢", "马上抢", "速抢", "扫码", "点击购买", "购买链接"]
  const SalesProductWords: seq<string> := ["爆款", "热销", "新品", "新品上市", "配置拉满", "性价比", "超值"]
  const SalesShopWords: seq<string> := ["包邮", "货到付款", "七天退换", "正品", "官方", "旗舰店", "自营"]

  const SalesKeywordsAsWritten: seq<string> :=
    SalesPriceWords + SalesUnitWords + SalesActionWordsAsWritten + SalesProductWords + SalesShopWords

  /** The 带货 list with each keyword once. */
  const SalesKeywords: seq<string> :=
    SalesPriceWords + SalesUnitWords + SalesActionWords + SalesProductWords + SalesShopWords

  /** The other lists of `_default_noise_keywords`. */
  const RecruitingKeywords: seq<string> := ["招聘", "诚聘", "猎头", "职位", "JD", "简历", "应聘", "面试", "入职", "薪资"]
  const AdvertisingKeywords: seq<string> := ["赞助", "广告", "品牌推广", "商业合作", "软文", "推广"]
  const CourseKeywords: seq<string> := ["课程", "训练营", "扫码", "立减", "报名", "学习", "培训", "讲座", "公开课"]
  const CommunityKeywords: seq<string> := ["知识星球", "付费社群", "会员", "加入社群", "社群", "粉丝群", "交流群"]
  const EventKeywords: seq<string> := ["会议报名", "展会报名", "早鸟票", "活动报名", "立即报名", "报名开启", "开启报名"]
  const FundingKeywords: seq<string> := ["融资", "轮融资", "估值", "投资方", "募资", "IPO", "上市"]
  const AnnouncementKeywords: seq<string> := ["发布", "新品发布", "隆重推出", "盛大发布", "战略合作", "签署协议", "获奖"]

  /** `_default_noise_keywords` exactly as written. */
  const DefaultKeywordsAsWritten: Table := [
    Category("招聘", RecruitingKeywords),
    Category("带货", SalesKeywordsAsWritten),
    Category("广告", AdvertisingKeywords),
    Category("课程", CourseKeywords),
    Category("社群", CommunityKeywords),
    Category("活动推广", EventKeywords),
    Category("融资", FundingKeywords),
    Category("公关", AnnouncementKeywords)
  ]

  /** The default table with the repeated 抢购 dropped from the calls to
      action: the table the source evidently means, which the lemmas about
      the intended counting rule use. */
  const DefaultKeywords: Table := [
    Category("招聘", RecruitingKeywords),
    Category("带货", SalesKeywords),
    Category("广告", AdvertisingKeywords),
    Category("课程", CourseKeywords),
    Category("社群", CommunityKeywords),
    Category("活动推广", EventKeywords),
    Category("融资", FundingKeywords),
    Category("公关", AnnouncementKeywords)
  ]

  // ---------------------------------------------------------------------
  // _match_keywords / _get_noise_level
  // ---------------------------------------------------------------------

  /** The entry at `i` has the highest count of the table and no earlier
      entry reaches it: the winner of a scan that updates only on `>`. */
  ghost predicate EarliestBest(table: Table, text: string, i: nat)
  {
    && i < |table|
    && (forall k :: 0 <= k < |table| ==> Hits(table[k].keywords, text) <= Hits(table[i].keywords, text))
    && (forall k :: 0 <= k < i ==> Hits(table[k].keywords, text) < Hits(table[i].keywords, text))
  }

  /** `best_match_type` (as a position) and `best_match_count` after the
      outer loop has visited the entries of `table`. */
  function Leader(table: Table, text: string): (r: (Option<nat>, nat))
    ensures r.0.Some? ==> EarliestBest(table, text, r.0.value) && r.1 == Hits(table[r.0.value].keywords, text)
    ensures r.0.Some? <==> r.1 > 0
    ensures forall k :: 0 <= k < |table| ==> Hits(table[k].keywords, text) <= r.1
  {
    if |table| == 0 then (None, 0)
    else
      var n := |table| - 1;
      var prev := Leader(table[..n], text);
      var h := Hits(table[n].keywords, text);
      assert forall k :: 0 <= k < n ==> table[..n][k] == table[k];
      if h > prev.1 then (Some(n), h) else prev
  }

  /** No entry wins when no keyword of any entry occurs in the text. */
  lemma LeaderNoneIffNoHits(table: Table, text: string)
    ensures Leader(table, text).0.None? <==> forall k :: 0 <= k < |table| ==> Hits(table[k].keywords, text) == 0
  {
    var r := Leader(table, text);
    if r.0.Some? {
      assert Hits(table[r.0.value].keywords, text) > 0;
    }
  }

  /** The name of the winning entry, as `best_match_type` holds it. */
  function LeaderName(table: Table, text: string): Option<string>
  {
    match Leader(table, text).0
    case None => None
    case Some(i) => Some(table[i].name)
  }

  /** The dictionary `_match_keywords` returns. */
  datatype KeywordVerdict = KeywordVerdict(isNoise: bool, noiseType: Option<string>, noiseLevel: Option<NoiseLevel>)

  /** What `_match_keywords` returns for a text: noise exactly when some
      entry has at least two keyword hits; then the earliest entry with the
      most hits names the type, and its level follows `_get_noise_level`. */
  function Verdict(table: Table, text: string): (v: KeywordVerdict)
    ensures v.isNoise <==> exists k :: 0 <= k < |table| && Hits(table[k].keywords, text) >= 2
    ensures !v.isNoise ==> v.noiseType.None? && v.noiseLevel.None?
    ensures v.isNoise ==> exists i: nat :: (EarliestBest(table, text, i)
      && v.noiseType == Some(table[i].name) && v.noiseLevel == Some(NoiseLevelOf(table[i].name)))
  {
    var r := Leader(table, text);
    if r.1 >= 2 then
      var name := table[r.0.value].name;
      KeywordVerdict(true, Some(name), Some(NoiseLevelOf(name)))
    else
      KeywordVerdict(false, None, None)
  }

  /** `_match_keywords`: the nested loops over the table and its keywords. */
  method MatchKeywords(table: Table, text: string) returns (v: KeywordVerdict)
    ensures v == Verdict(table, text)
  {
    var bestType: Option<string> := None;
    var bestCount := 0;
    var t := 0;
    while t < |table|
      invariant 0 <= t <= |table|
      invariant bestCount == Leader(table[..t], text).1
      invariant bestType == LeaderName(table[..t], text)
    {
      assert table[..t + 1][..t] == table[..t];
      var typeCount := CountHits(table[t].keywords, text);
      if typeCount > bestCount {
        bestType := Some(table[t].name);
        bestCount := typeCount;
      }
      t := t + 1;
    }
    assert table[..t] == table;
    var isNoise := bestCount >= 2;
    if isNoise {
      v := KeywordVerdict(true, bestType, Some(NoiseLevelOf(bestType.value)));
    } else {
      v := KeywordVerdict(false, None, None);
    }
  }

  /** Every type of the default tables is one `_get_noise_level` places
      among advertising or announcements. */
  lemma DefaultTypesAreLevelled()
    ensures forall i :: 0 <= i < |DefaultKeywords| ==> DefaultKeywords[i].name in AdTypes + PrTypes
    ensures forall i :: 0 <= i < |DefaultKeywordsAsWritten| ==> DefaultKeywordsAsWritten[i].name in AdTypes + PrTypes
  {
  }

  /** With the table `__init__` installs, and with the corrected one, a
      noise verdict is never `light`. */
  lemma DefaultNoiseIsNoiseOrPr(text: string)
    ensures Verdict(DefaultKeywordsAsWritten, text).isNoise ==>
      Verdict(DefaultKeywordsAsWritten, text).noiseLevel in {Some(Noise), Some(Pr)}
    ensures Verdict(DefaultKeywords, text).isNoise ==>
      Verdict(DefaultKeywords, text).noiseLevel in {Some(Noise), Some(Pr)}
  {
    DefaultTypesAreLevelled();
  }

  // Facts about the literal lists. Each is split into lemmas of one or two
  // facts, so that the solver compares only a few lists at a time.

  /** Each group of the corrected 带货 list names each keyword once. */
  lemma SalesGroupsDistinct()
    ensures NoDup(SalesPriceWords) && NoDup(SalesUnitWords) && NoDup(SalesActionWords)
    ensures NoDup(SalesProductWords) && NoDup(SalesShopWords)
  {
    PriceWordsDistinct();
    OtherSalesGroupsDistinct();
  }

  /** The price words name each keyword once (split by position for solver cost). */
  lemma PriceWordsDistinct()
    ensures NoDup(SalesPriceWords)
  {
    EarlyPriceWordsDistinct();
    LatePriceWordsDistinct();
  }

  /** Solver-cost split of `PriceWordsDistinct`: the first nine entries. */
  lemma EarlyPriceWordsDistinct()
    ensures forall i, j :: 0 <= i < 9 && i < j < |SalesPriceWords| ==> SalesPriceWords[i] != SalesPriceWords[j]
  {
  }

  /** Solver-cost split of `PriceWordsDistinct`: the remaining entries. */
  lemma LatePriceWordsDistinct()
    ensures forall i, j :: 9 <= i < j < |SalesPriceWords| ==> SalesPriceWords[i] != SalesPriceWords[j]
  {
  }

  /** The four smaller groups name each keyword once. */
  lemma OtherSalesGroupsDistinct()
    ensures NoDup(SalesUnitWords) && NoDup(SalesActionWords)
    ensures NoDup(SalesProductWords) && NoDup(SalesShopWords)
  {
  }

  /** The corrected groups share no keyword. */
  lemma SalesGroupsDisjoint()
    ensures Disjoint(SalesPriceWords, SalesUnitWords) && Disjoint(SalesPriceWords, SalesActionWords)
    ensures Disjoint(SalesPriceWords, SalesProductWords) && Disjoint(SalesPriceWords, SalesShopWords)
    ensures Disjoint(SalesUnitWords, SalesActionWords) && Disjoint(SalesUnitWords, SalesProductWords)
    ensures Disjoint(SalesUnitWords, SalesShopWords) && Disjoint(SalesActionWords, SalesProductWords)
    ensures Disjoint(SalesActionWords, SalesShopWords) && Disjoint(SalesProductWords, SalesShopWords)
  {
    PriceWordsDisjoint();
    UnitWordsDisjoint();
    LaterWordsDisjoint();
  }

  /** Solver-cost split of `SalesGroupsDisjoint`: the price words against the rest. */
  lemma PriceWordsDisjoint()
    ensures Disjoint(SalesPriceWords, SalesUnitWords) && Disjoint(SalesPriceWords, SalesActionWords)
    ensures Disjoint(SalesPriceWords, SalesProductWords) && Disjoint(SalesPriceWords, SalesShopWords)
  {
    PriceUnitActionDisjoint();
    PriceProductShopDisjoint();
  }

  /** Solver-cost split of `PriceWordsDisjoint`. */
  lemma PriceUnitActionDisjoint()
    ensures Disjoint(SalesPriceWords, SalesUnitWords) && Disjoint(SalesPriceWords, SalesActionWords)
  {
  }

  /** Solver-cost split of `PriceWordsDisjoint`. */
  lemma PriceProductShopDisjoint()
    ensures Disjoint(SalesPriceWords, SalesProductWords) && Disjoint(SalesPriceWords, SalesShopWords)
  {
  }

  /** Solver-cost split of `SalesGroupsDisjoint`: the units against the later groups. */
  lemma UnitWordsDisjoint()
    ensures Disjoint(SalesUnitWords, SalesActionWords) && Disjoint(SalesUnitWords, SalesProductWords)
    ensures Disjoint(SalesUnitWords, SalesShopWords)
  {
  }

  /** Solver-cost split of `SalesGroupsDisjoint`: the last three groups. */
  lemma LaterWordsDisjoint()
    ensures Disjoint(SalesActionWords, SalesProductWords) && Disjoint(SalesActionWords, SalesShopWords)
    ensures Disjoint(SalesProductWords, SalesShopWords)
  {
  }

  /** The corrected 带货 list names each keyword once. */
  lemma SalesKeywordsDistinct()
    ensures NoDup(SalesKeywords)
  {
    var p, u, a, d, s := SalesPriceWords, SalesUnitWords, SalesActionWords, SalesProductWords, SalesShopWords;
    SalesGroupsDistinct();
    SalesGroupsDisjoint();
    NoDupConcat(p, u);
    DisjointConcat(p, u, a);
    NoDupConcat(p + u, a);
    DisjointConcat(p, u, d);
    DisjointConcat(p + u, a, d);
    NoDupConcat(p + u + a, d);
    DisjointConcat(p, u, s);
    DisjointConcat(p + u, a, s);
    DisjointConcat(p + u + a, d, s);
    NoDupConcat(p + u + a + d, s);
  }

  /** The lists other than 带货 are the same in both tables and name each
      keyword once. */
  lemma OtherListsSame()
    ensures |DefaultKeywordsAsWritten| == |DefaultKeywords|
    ensures forall k :: 0 <= k < |DefaultKeywords| && k != 1 ==> DefaultKeywordsAsWritten[k] == DefaultKeywords[k]
  {
  }

  /** The seven lists other than 带货 name each keyword once. */
  lemma OtherListsDistinct()
    ensures NoDup(RecruitingKeywords) && NoDup(AdvertisingKeywords) && NoDup(CourseKeywords)
    ensures NoDup(CommunityKeywords) && NoDup(EventKeywords) && NoDup(FundingKeywords)
    ensures NoDup(AnnouncementKeywords)
  {
  }

  /** No list of the corrected table repeats a keyword. */
  lemma DefaultKeywordsDistinct(k: nat)
    requires 0 <= k < |DefaultKeywords|
    ensures NoDup(DefaultKeywords[k].keywords)
  {
    if k == 1 {
      SalesKeywordsDistinct();
    } else {
      OtherListsDistinct();
    }
  }

  /** With the corrected table the keyword count is what it is meant to be:
      an article is noise exactly when two different keywords of one type
      occur in it. */
  lemma DefaultNoiseNeedsTwoKeywords(text: string)
    ensures Verdict(DefaultKeywords, text).isNoise <==>
      exists k :: 0 <= k < |DefaultKeywords| && |MatchingKeywords(DefaultKeywords[k].keywords, text)| >= 2
  {
    forall k | 0 <= k < |DefaultKeywords|
      ensures Hits(DefaultKeywords[k].keywords, text) == |MatchingKeywords(DefaultKeywords[k].keywords, text)|
    {
      DefaultKeywordsDistinct(k);
      HitsCountsDistinctKeywords(DefaultKeywords[k].keywords, text);
    }
  }

  /** The only keywords that can occur in the text 抢购 are its pieces. */
  lemma PiecesOfQiangGou(kw: string)
    ensures Contains("抢购", kw) ==> kw in ["", "抢", "购", "抢购"]
  {
    var t := "抢购";
    ContainsIffOccurs(t, kw);
    assert t[0..0] == "" && t[0..1] == "抢" && t[1..2] == "购" && t[0..2] == t;
  }

  /** A list that does not name the pieces 抢 or 购 matches at most one
      distinct keyword in the text 抢购. */
  lemma AtMostOneKeyword(kws: seq<string>)
    requires "" !in kws && "抢" !in kws && "购" !in kws
    ensures |MatchingKeywords(kws, "抢购")| <= 1
  {
    var m := MatchingKeywords(kws, "抢购");
    forall kw | kw in m
      ensures kw == "抢购"
    {
      PiecesOfQiangGou(kw);
    }
    if m != {} {
      var x :| x in m;
      assert m == {x};
    }
  }

  /** No entry of the list is empty or one of the characters of 抢购. */
  predicate NamesNoPiece(kws: seq<string>)
  {
    forall i :: 0 <= i < |kws| ==> kws[i] != "" && kws[i] != "抢" && kws[i] != "购"
  }

  /** No 带货 group names an empty keyword, 抢 or 购. */
  lemma SalesGroupsNameNoPiece()
    ensures NamesNoPiece(SalesPriceWords) && NamesNoPiece(SalesUnitWords)
    ensures NamesNoPiece(SalesActionWordsAsWritten) && NamesNoPiece(SalesProductWords)
    ensures NamesNoPiece(SalesShopWords)
  {
  }

  /** No other list names an empty keyword, 抢 or 购. */
  lemma OtherListsNameNoPiece()
    ensures NamesNoPiece(RecruitingKeywords) && NamesNoPiece(AdvertisingKeywords)
    ensures NamesNoPiece(CourseKeywords) && NamesNoPiece(CommunityKeywords)
    ensures NamesNoPiece(EventKeywords) && NamesNoPiece(FundingKeywords)
    ensures NamesNoPiece(AnnouncementKeywords)
  {
  }

  /** No list of the table as written names the pieces 抢 or 购 alone. */
  lemma NoListNamesPieces(k: nat)
    requires k < |DefaultKeywordsAsWritten|
    ensures "" !in DefaultKeywordsAsWritten[k].keywords
    ensures "抢" !in DefaultKeywordsAsWritten[k].keywords && "购" !in DefaultKeywordsAsWritten[k].keywords
  {
    if k == 1 {
      SalesGroupsNameNoPiece();
      var p, u, a, d, s := SalesPriceWords, SalesUnitWords, SalesActionWordsAsWritten, SalesProductWords, SalesShopWords;
      NamesNoPieceConcat(p, u);
      NamesNoPieceConcat(p + u, a);
      NamesNoPieceConcat(p + u + a, d);
      NamesNoPieceConcat(p + u + a + d, s);
      NamesNoPieceExcludes(SalesKeywordsAsWritten);
    } else {
      OtherListsNameNoPiece();
      NamesNoPieceExcludes(DefaultKeywordsAsWritten[k].keywords);
    }
  }

  /** Joining two lists that name no piece gives a list that names none. */
  lemma NamesNoPieceConcat(x: seq<string>, y: seq<string>)
    requires NamesNoPiece(x) && NamesNoPiece(y)
    ensures NamesNoPiece(x + y)
  {
    forall i | 0 <= i < |x + y|
      ensures (x + y)[i] != "" && (x + y)[i] != "抢" && (x + y)[i] != "购"
    {
      if i >= |x| {
        assert (x + y)[i] == y[i - |x|];
      }
    }
  }

  /** The index form of `NamesNoPiece` gives the membership form. */
  lemma NamesNoPieceExcludes(kws: seq<string>)
    requires NamesNoPiece(kws)
    ensures "" !in kws && "抢" !in kws && "购" !in kws
  {
  }

  /** Every list of the table as written matches at most one distinct
      keyword in the text 抢购. */
  lemma AsWrittenOneKeywordEach()
    ensures forall k :: 0 <= k < |DefaultKeywordsAsWritten| ==>
      |MatchingKeywords(DefaultKeywordsAsWritten[k].keywords, "抢购")| <= 1
  {
    forall k | 0 <= k < |DefaultKeywordsAsWritten|
      ensures |MatchingKeywords(DefaultKeywordsAsWritten[k].keywords, "抢购")| <= 1
    {
      NoListNamesPieces(k);
      AtMostOneKeyword(DefaultKeywordsAsWritten[k].keywords);
    }
  }

  /** Every list but 带货 counts at most one hit in the text 抢购. */
  lemma AsWrittenOthersHitOnce()
    ensures forall k :: 0 <= k < |DefaultKeywordsAsWritten| && k != 1 ==>
      Hits(DefaultKeywordsAsWritten[k].keywords, "抢购") <= 1
  {
    AsWrittenOneKeywordEach();
    OtherListsSame();
    OtherListsDistinct();
    forall k | 0 <= k < |DefaultKeywordsAsWritten| && k != 1
      ensures Hits(DefaultKeywordsAsWritten[k].keywords, "抢购") <= 1
    {
      DefaultKeywordsDistinct(k);
      HitsCountsDistinctKeywords(DefaultKeywordsAsWritten[k].keywords, "抢购");
    }
  }

  /** The table as written breaks that: the text 抢购 holds a single
      keyword of each list, yet it is judged advertising of type 带货,
      because the repeated list entry counts twice. */
  lemma AsWrittenRepeatedKeywordCountsTwice()
    ensures Verdict(DefaultKeywordsAsWritten, "抢购").isNoise
    ensures Verdict(DefaultKeywordsAsWritten, "抢购").noiseType == Some("带货")
    ensures forall k :: 0 <= k < |DefaultKeywordsAsWritten| ==>
      |MatchingKeywords(DefaultKeywordsAsWritten[k].keywords, "抢购")| <= 1
  {
    var table := DefaultKeywordsAsWritten;
    AsWrittenOneKeywordEach();
    SalesRepeatCountsTwice();
    assert table[1].keywords == SalesKeywordsAsWritten && table[1].name == "带货";
    AsWrittenOthersHitOnce();
    var i := Leader(table, "抢购").0.value;
    assert Hits(table[1].keywords, "抢购") <= Hits(table[i].keywords, "抢购");
    assert i == 1;
  }

  /** The two 抢购 entries of the list as written are two hits. */
  lemma SalesRepeatCountsTwice()
    ensures Hits(SalesKeywordsAsWritten, "抢购") >= 2
  {
    var ads := SalesKeywordsAsWritten;
    assert ads[9] == "抢购" && ads[30] == "抢购";
    assert "抢购" <= "抢购";
    HitsCountsPositions(ads, "抢购");
    assert {9, 30} <= MatchingPositions(ads, "抢购");
    SubsetCard({9, 30}, MatchingPositions(ads, "抢购"));
  }

  // ---------------------------------------------------------------------
  // Prompts: _generate_full_summary and _generate_simple_summary
  // ---------------------------------------------------------------------

  const FullPromptHead: string := "请将以下公众号文章生成总结，要求：\n\n【标签】\n1. 输出3-5个分类标签（关键词）\n2. 使用简洁的中文词汇（2-4个字）\n3. 标签之间用顿号、分隔\n4. 标签应该反映文章的核心主题（如：科技、互联网、商业分析等）\n\n【总结】\n1. 提炼文章核心观点和关键数据\n2. 控制在500字以内\n3. 使用简洁的语言\n4. 分段清晰，每段一个要点\n5. 突出文章的价值和亮点\n\n文章标题："
  const FullPromptAuthor: string := "\n\n公众号："
  const FullPromptBody: string := "\n\n文章内容：\n"
  const FullPromptTail: string := "\n\n请按以下格式输出：\n\n【标签】标签1、标签2、标签3\n\n【总结】\n总结内容...\n"

  /** How much of the article body the full prompt carries. */
  const FullContentLimit: nat := 4000

  const SimplePromptHead: string := "请将以下公众号文章提取为关键要点和分类标签，要求：\n\n【标签】\n根据文章内容，给出3-5个分类标签（如：电商、购物、职场、教育等），用顿号、分隔\n\n【总结】\n提炼3-5个关键要点，要求：\n1. 每个要点不超过15字\n2. 严格控制在100字以内\n3. 必须包含以下信息：\n"
  const SimplePromptTitle: string := "\n\n文章标题："
  const SimplePromptBody: string := "\n\n文章内容：\n"
  const SimplePromptTail: string := "\n\n请按以下格式输出：\n\n【标签】分类1、分类2、分类3\n\n【总结】\n• 要点1\n• 要点2\n• 要点3"

  /** How much of the article body the abbreviated prompt carries. */
  const SimpleContentLimit: nat := 2000

  function Min(a: nat, b: nat): nat
  {
    if a < b then a else b
  }

  /** The prompt of `_generate_full_summary`: title, account name and at
      most the first 4000 characters of the body in a fixed frame. */
  function FullPrompt(a: Article): (p: string)
    ensures |p| == |FullPromptHead + FullPromptAuthor + FullPromptBody + FullPromptTail|
      + |a.title| + |a.author| + Min(|a.content|, FullContentLimit)
  {
    FullPromptHead + a.title + FullPromptAuthor + a.author + FullPromptBody + Take(a.content, FullContentLimit) + FullPromptTail
  }

  /** The full prompt carries the opening of the body, and nothing of the
      body beyond its first 4000 characters matters. */
  lemma FullPromptTruncates(a: Article, b: Article)
    ensures Contains(FullPrompt(a), Take(a.content, FullContentLimit))
    ensures (a.title == b.title && a.author == b.author
      && Take(a.content, FullContentLimit) == Take(b.content, FullContentLimit)) ==> FullPrompt(a) == FullPrompt(b)
  {
    ContainsMiddle(FullPromptHead + a.title + FullPromptAuthor + a.author + FullPromptBody,
      Take(a.content, FullContentLimit), FullPromptTail);
  }

  /** The prompt of `_generate_simple_summary`: the bullet fields for the
      noise type, the title and at most the first 2000 characters of the body. */
  function SimplePrompt(a: Article, noiseType: string): (p: string)
    ensures |p| == |SimplePromptHead + SimplePromptTitle + SimplePromptBody + SimplePromptTail|
      + |PointsRequirements(noiseType)| + |a.title| + Min(|a.content|, SimpleContentLimit)
  {
    SimplePromptHead + PointsRequirements(noiseType) + SimplePromptTitle + a.title + SimplePromptBody
      + Take(a.content, SimpleContentLimit) + SimplePromptTail
  }

  /** The abbreviated prompt carries the opening of the body and the bullet
      fields of the noise type, the three-placeholder default for a type
      without its own list. */
  lemma SimplePromptContents(a: Article, noiseType: string)
    ensures Contains(SimplePrompt(a, noiseType), Take(a.content, SimpleContentLimit))
    ensures Contains(SimplePrompt(a, noiseType), PointsRequirements(noiseType))
    ensures noiseType !in PointsTable ==> Contains(SimplePrompt(a, noiseType), DefaultPoints)
  {
    var req := PointsRequirements(noiseType);
    var body := Take(a.content, SimpleContentLimit);
    var rest := SimplePromptTitle + a.title + SimplePromptBody + body + SimplePromptTail;
    var p := SimplePromptHead + req;
    Assoc(p, SimplePromptTitle, a.title);
    Assoc(p, SimplePromptTitle + a.title, SimplePromptBody);
    Assoc(p, SimplePromptTitle + a.title + SimplePromptBody, body);
    Assoc(p, SimplePromptTitle + a.title + SimplePromptBody + body, SimplePromptTail);
    ContainsMiddle(SimplePromptHead, req, rest);
    ContainsMiddle(SimplePromptHead + req + SimplePromptTitle + a.title + SimplePromptBody,
      Take(a.content, SimpleContentLimit), SimplePromptTail);
  }

  /** The abbreviated prompt depends on the body only through its first 2000 characters. */
  lemma SimplePromptTruncates(a: Article, b: Article, noiseType: string)
    ensures a.title == b.title && Take(a.content, SimpleContentLimit) == Take(b.content, SimpleContentLimit)
      ==> SimplePrompt(a, noiseType) == SimplePrompt(b, noiseType)
  {
  }

  // ---------------------------------------------------------------------
  // The outcome of a generation call
  // ---------------------------------------------------------------------

  const ApiErrorPrefix: string := "API 错误: "
  const FullFailurePrefix: string := "生成总结失败: "
  const SimpleFailurePrefix: string := "生成简化摘要失败: "

  /** The `try` block of both generators: a 200 response is parsed, any
      other status gives `API 错误: <code>`, and an exception gives the
      generator's failure prefix followed by the exception text; neither
      sentinel has categories. */
  function SummaryFromOutcome(o: GenOutcome, failurePrefix: string): (r: SummaryResult)
    ensures o.Response? && o.statusCode == 200 ==> r == ParseAiResponse(o.text)
    ensures o.Response? && o.statusCode != 200 ==> r == SummaryResult(ApiErrorPrefix + o.code, [])
    ensures o.Raised? ==> r == SummaryResult(failurePrefix + o.error, [])
  {
    match o
    case Response(status, code, _, text) =>
      if status == 200 then ParseAiResponse(text) else SummaryResult(ApiErrorPrefix + code, [])
    case Raised(e) => SummaryResult(failurePrefix + e, [])
  }

  /** Whatever the service does, the categories are a duplicate-free list
      of at most five tags, empty unless the call succeeded. */
  lemma OutcomeCategoriesBounded(o: GenOutcome, failurePrefix: string)
    ensures |SummaryFromOutcome(o, failurePrefix).categories| <= 5
    ensures NoDup(SummaryFromOutcome(o, failurePrefix).categories)
    ensures !(o.Response? && o.statusCode == 200) ==> SummaryFromOutcome(o, failurePrefix).categories == []
    ensures o.Response? && o.statusCode != 200 ==> ApiErrorPrefix <= SummaryFromOutcome(o, failurePrefix).summary
    ensures o.Raised? ==> failurePrefix <= SummaryFromOutcome(o, failurePrefix).summary
  {
  }

  // ---------------------------------------------------------------------
  // process_article
  // ---------------------------------------------------------------------

  /** The dictionary `process_article` returns. */
  datatype ProcessedArticle = ProcessedArticle(
    summary: string,
    categories: seq<string>,
    isNoise: bool,
    noiseType: Option<string>,
    noiseLevel: Option<NoiseLevel>)

  /** `process_article`: the keyword verdict on title and body picks the
      abbreviated prompt for noise and the full prompt otherwise; the
      verdict is reported unchanged beside the generated summary. */
  function ProcessArticle(table: Table, a: Article, generate: string -> GenOutcome): (r: ProcessedArticle)
    ensures var v := Verdict(table, a.title + a.content);
      r.isNoise == v.isNoise && r.noiseType == v.noiseType && r.noiseLevel == v.noiseLevel
    ensures r.isNoise ==> (r.noiseType.Some? && SummaryResult(r.summary, r.categories)
      == SummaryFromOutcome(generate(SimplePrompt(a, r.noiseType.value)), SimpleFailurePrefix))
    ensures !r.isNoise ==> (SummaryResult(r.summary, r.categories)
      == SummaryFromOutcome(generate(FullPrompt(a)), FullFailurePrefix))
    ensures |r.categories| <= 5 && NoDup(r.categories)
  {
    var v := Verdict(table, a.title + a.content);
    var o := if v.isNoise then generate(SimplePrompt(a, v.noiseType.value)) else generate(FullPrompt(a));
    var failurePrefix := if v.isNoise then SimpleFailurePrefix else FullFailurePrefix;
    var res := SummaryFromOutcome(o, failurePrefix);
    OutcomeCategoriesBounded(o, failurePrefix);
    ProcessedArticle(res.summary, res.categories, v.isNoise, v.noiseType, v.noiseLevel)
  }

  /** The processor as constructed holds the table as written; with it, and
      with the corrected table, a noise result is always of level `noise` or
      `pr`. */
  lemma ProcessorNoiseIsNoiseOrPr(a: Article, generate: string -> GenOutcome)
    ensures ProcessArticle(DefaultKeywordsAsWritten, a, generate).isNoise ==>
      ProcessArticle(DefaultKeywordsAsWritten, a, generate).noiseLevel in {Some(Noise), Some(Pr)}
    ensures ProcessArticle(DefaultKeywords, a, generate).isNoise ==>
      ProcessArticle(DefaultKeywords, a, generate).noiseLevel in {Some(Noise), Some(Pr)}
  {
    DefaultNoiseIsNoiseOrPr(a.title + a.content);
  }
}
