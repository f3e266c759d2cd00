/** `ArticleClassifier`: a keyword classifier whose running best is ranked
    first by the number of keyword hits and then by the match rate, with a
    confidence ladder on top of it. */
module ArticleClassifier {
  import opened Text
  import opened Common
  import opened Noise

  const RecruitingKeywords: seq<string> := ["招聘", "诚聘", "猎头", "职位", "JD", "简历", "应聘", "面试"]
  const SalesKeywords: seq<string> := ["购买", "下单", "优惠", "限时", "折扣", "促销", "购买链接", "立即抢"]
  const AdvertisingKeywords: seq<string> := ["赞助", "广告", "品牌推广", "商业合作"]
  const CourseKeywords: seq<string> := ["课程", "训练营", "扫码", "立减", "报名", "学习"]
  const CommunityKeywords: seq<string> := ["知识星球", "付费社群", "会员", "加入社群", "社群"]
  const EventKeywords: seq<string> := ["会议报名", "展会报名", "早鸟票", "活动报名", "立即报名", "报名开启"]
  const FundingKeywords: seq<string> := ["融资", "轮融资", "估值", "投资方", "募资"]
  const AnnouncementKeywords: seq<string> := ["发布", "新品发布", "隆重推出", "盛大发布", "战略合作", "签署协议", "获奖"]

  /** `_default_noise_keywords` of the classifier. */
  const DefaultKeywords: Table := [
    Category("招聘", RecruitingKeywords),
    Category("带货", SalesKeywords),
    Category("广告", AdvertisingKeywords),
    Category("课程", CourseKeywords),
    Category("社群", CommunityKeywords),
    Category("活动推广", EventKeywords),
    Category("融资", FundingKeywords),
    Category("公关", AnnouncementKeywords)
  ]

  /** `noise_keywords or self._default_noise_keywords()`: a supplied table
      is used unless it is missing or empty. */
  function ClassifierKeywords(supplied: Option<Table>): (t: Table)
    ensures supplied.Some? && |supplied.value| > 0 ==> t == supplied.value
    ensures supplied.None? || |supplied.value| == 0 ==> t == DefaultKeywords
  {
    if supplied.Some? && |supplied.value| > 0 then supplied.value else DefaultKeywords
  }

  // ---------------------------------------------------------------------
  // _match_keywords
  // ---------------------------------------------------------------------

  /** A match rate `num / den` with `den > 0`, compared exactly. */
  datatype Rate = Rate(num: nat, den: nat)

  /** `a > b` on rates, by cross-multiplication. */
  predicate RateAbove(a: Rate, b: Rate)
  {
    a.num * b.den > b.num * a.den
  }

  /** `type_count / len(keywords)` of entry `k`. */
  function RateOf(table: Table, k: nat, text: string): Rate
    requires k < |table|
  {
    Rate(Hits(table[k].keywords, text), |table[k].keywords|)
  }

  /** Entry `i` ranks above entry `k`: more hits, or as many hits out of a
      shorter list (a higher match rate). */
  ghost predicate Outranks(table: Table, text: string, i: nat, k: nat)
    requires i < |table| && k < |table|
  {
    || Hits(table[i].keywords, text) > Hits(table[k].keywords, text)
    || (Hits(table[i].keywords, text) == Hits(table[k].keywords, text)
        && |table[i].keywords| < |table[k].keywords|)
  }

  /** Entry `i` is the result of the scan: it has a hit, no entry with a hit
      outranks it, and it outranks every earlier entry with a hit, so that
      on a full tie the earliest entry wins. */
  ghost predicate BestMatch(table: Table, text: string, i: nat)
  {
    && i < |table|
    && Hits(table[i].keywords, text) > 0
    && (forall k :: 0 <= k < |table| && Hits(table[k].keywords, text) > 0 ==> !Outranks(table, text, k, i))
    && (forall k :: 0 <= k < i && Hits(table[k].keywords, text) > 0 ==> Outranks(table, text, i, k))
  }

  /** At equal positive counts the rate comparison is a comparison of list lengths. */
  lemma EqualCountRates(h: nat, l1: nat, l2: nat)
    ensures h > 0 ==> (RateAbove(Rate(h, l1), Rate(h, l2)) <==> l1 < l2)
  {
    if l1 < l2 {
      assert h * l2 == h * l1 + h * (l2 - l1);
    } else {
      assert h * l1 == h * l2 + h * (l1 - l2);
    }
  }

  /** Between entries with hits, outranking is the source's replacement
      test: more hits, or as many hits at a strictly higher match rate. */
  lemma OutranksIsReplacementTest(table: Table, text: string, i: nat, k: nat)
    requires i < |table| && k < |table|
    requires Hits(table[i].keywords, text) > 0 && Hits(table[k].keywords, text) > 0
    ensures Outranks(table, text, i, k) <==>
      || Hits(table[i].keywords, text) > Hits(table[k].keywords, text)
      || (Hits(table[i].keywords, text) == Hits(table[k].keywords, text)
          && RateAbove(RateOf(table, i, text), RateOf(table, k, text)))
  {
    EqualCountRates(Hits(table[i].keywords, text), |table[i].keywords|, |table[k].keywords|);
  }

  /** The running `best_match_type` (as a position), `best_match_count`
      and `best_match_total` after the entries of `table`. */
  function Leader(table: Table, text: string): (r: (Option<nat>, nat, Rate))
    ensures r.0.Some? ==> (BestMatch(table, text, r.0.value)
      && r.1 == Hits(table[r.0.value].keywords, text) && r.2 == RateOf(table, r.0.value, text))
    ensures r.0.None? ==> (r.1 == 0 && r.2 == Rate(0, 1)
      && forall k :: 0 <= k < |table| ==> Hits(table[k].keywords, text) == 0)
  {
    if |table| == 0 then (None, 0, Rate(0, 1))
    else
      var n := |table| - 1;
      var prev := Leader(table[..n], text);
      var h := Hits(table[n].keywords, text);
      var rate := Rate(h, |table[n].keywords|);
      if h > 0 && (h > prev.1 || (h == prev.1 && RateAbove(rate, prev.2))) then
        LeaderTakes(table, text, prev);
        (Some(n), h, rate)
      else
        LeaderKeeps(table, text, prev);
        prev
  }

  /** The two postconditions of `Leader`, as one predicate for its step lemmas. */
  ghost predicate LeaderFacts(table: Table, text: string, r: (Option<nat>, nat, Rate))
  {
    && (r.0.Some? ==> (BestMatch(table, text, r.0.value)
      && r.1 == Hits(table[r.0.value].keywords, text) && r.2 == RateOf(table, r.0.value, text)))
    && (r.0.None? ==> (r.1 == 0 && r.2 == Rate(0, 1)
      && forall k :: 0 <= k < |table| ==> Hits(table[k].keywords, text) == 0))
  }

  /** The last entry replaces the leader of the others when the source's
      replacement test says so; it is then the best match. */
  lemma LeaderTakes(table: Table, text: string, prev: (Option<nat>, nat, Rate))
    requires |table| > 0 && LeaderFacts(table[..|table| - 1], text, prev)
    requires var n := |table| - 1; var h := Hits(table[n].keywords, text);
      h > 0 && (h > prev.1 || (h == prev.1 && RateAbove(Rate(h, |table[n].keywords|), prev.2)))
    ensures BestMatch(table, text, |table| - 1)
  {
    var n := |table| - 1;
    var t := table[..n];
    assert forall k :: 0 <= k < n ==> t[k] == table[k];
    EqualCountRates(Hits(table[n].keywords, text), |table[n].keywords|, prev.2.den);
  }

  /** Otherwise the leader of the others stays the leader. */
  lemma LeaderKeeps(table: Table, text: string, prev: (Option<nat>, nat, Rate))
    requires |table| > 0 && LeaderFacts(table[..|table| - 1], text, prev)
    requires var n := |table| - 1; var h := Hits(table[n].keywords, text);
      !(h > 0 && (h > prev.1 || (h == prev.1 && RateAbove(Rate(h, |table[n].keywords|), prev.2))))
    ensures LeaderFacts(table, text, prev)
  {
    var n := |table| - 1;
    var t := table[..n];
    assert forall k :: 0 <= k < n ==> t[k] == table[k];
    EqualCountRates(Hits(table[n].keywords, text), |table[n].keywords|, prev.2.den);
  }

  /** The dictionary `_match_keywords` returns; the confidence is in hundredths. */
  datatype KeywordMatch = KeywordMatch(categories: seq<string>, confidence: nat, noiseType: Option<string>)

  /** The confidence ladder: 0.9 for at least two hits, 0.5 for one hit at a
      positive rate, 0 otherwise. */
  function Confidence(count: nat, rate: Rate): nat
  {
    if count >= 2 then 90
    else if count == 1 && RateAbove(rate, Rate(0, 1)) then 50
    else 0
  }

  /** `_match_keywords` for a text: the best entry names the type, its name
      is the only category unless it is empty, and the confidence follows
      its hit count. */
  function Match(table: Table, text: string): (m: KeywordMatch)
    ensures m.noiseType.None? <==> forall k :: 0 <= k < |table| ==> Hits(table[k].keywords, text) == 0
    ensures m.noiseType.Some? ==> exists i: nat :: (BestMatch(table, text, i) && m.noiseType == Some(table[i].name)
      && (m.confidence == 90 <==> Hits(table[i].keywords, text) >= 2)
      && (m.confidence == 50 <==> Hits(table[i].keywords, text) == 1))
    ensures m.noiseType.None? ==> m.confidence == 0 && m.categories == []
    ensures m.noiseType.Some? && m.noiseType.value != "" ==> m.categories == [m.noiseType.value]
    ensures m.noiseType.Some? && m.noiseType.value == "" ==> m.categories == []
    ensures m.confidence in {0, 50, 90}
  {
    var r := Leader(table, text);
    var name := if r.0.Some? then Some(table[r.0.value].name) else None;
    var categories := if name.Some? && name.value != "" then [name.value] else [];
    KeywordMatch(categories, Confidence(r.1, r.2), name)
  }

  /** `_match_keywords`: the nested loops with their three running `best_*` variables. */
  method MatchKeywords(table: Table, text: string) returns (m: KeywordMatch)
    ensures m == Match(table, text)
  {
    var bestType: Option<string> := None;
    var bestCount := 0;
    var bestTotal := Rate(0, 1);
    var t := 0;
    while t < |table|
      invariant 0 <= t <= |table|
      invariant var r := Leader(table[..t], text);
        bestCount == r.1 && bestTotal == r.2
        && bestType == (if r.0.Some? then Some(table[r.0.value].name) else None)
    {
      assert table[..t + 1][..t] == table[..t];
      var keywords := table[t].keywords;
      var typeCount := CountHits(keywords, text);
      if typeCount > 0 {
        var matchRate := Rate(typeCount, |keywords|);
        if typeCount > bestCount || (typeCount == bestCount && RateAbove(matchRate, bestTotal)) {
          bestType := Some(table[t].name);
          bestCount := typeCount;
          bestTotal := matchRate;
        }
      }
      t := t + 1;
    }
    assert table[..t] == table;
    var confidence := 0;
    if bestCount >= 2 {
      confidence := 90;
    } else if bestCount == 1 && RateAbove(bestTotal, Rate(0, 1)) {
      confidence := 50;
    }
    var categories := if bestType.Some? && bestType.value != "" then [bestType.value] else [];
    m := KeywordMatch(categories, confidence, bestType);
  }

  // ---------------------------------------------------------------------
  // classify
  // ---------------------------------------------------------------------

  /** The dictionary `classify` returns (`_build_result` for noise). */
  datatype Classification = Classification(
    categories: seq<string>,
    isNoise: bool,
    noiseType: Option<string>,
    noiseLevel: Option<NoiseLevel>)

  /** `classify`: above 0.8 confidence the best type's result is reported as
      noise with the level `_get_noise_level` gives it; below, the article
      is normal and its categories are left to the text generator. */
  function Classify(table: Table, a: Article): (c: Classification)
    ensures var m := Match(table, a.title + a.content);
      c.isNoise <==> m.confidence > 80
    ensures !c.isNoise ==> c == Classification([], false, None, None)
    ensures c.isNoise ==> (c.noiseType.Some? && c.noiseType == Match(table, a.title + a.content).noiseType
      && c.noiseLevel == Some(NoiseLevelOf(c.noiseType.value))
      && c.categories == Match(table, a.title + a.content).categories)
  {
    var m := Match(table, a.title + a.content);
    if m.confidence > 80 then
      Classification(m.categories, true, m.noiseType, Some(NoiseLevelOf(m.noiseType.value)))
    else
      Classification([], false, None, None)
  }

  /** An article is noise exactly when some type has two keyword hits. */
  lemma ClassifyNoiseIffTwoHits(table: Table, a: Article)
    ensures Classify(table, a).isNoise <==>
      exists k :: 0 <= k < |table| && Hits(table[k].keywords, a.title + a.content) >= 2
  {
    var text := a.title + a.content;
    var m := Match(table, text);
    if m.noiseType.Some? {
      var i: nat :| BestMatch(table, text, i) && m.noiseType == Some(table[i].name)
        && (m.confidence == 90 <==> Hits(table[i].keywords, text) >= 2);
      forall k | 0 <= k < |table| && Hits(table[k].keywords, text) >= 2
        ensures Hits(table[i].keywords, text) >= 2
      {
        assert !Outranks(table, text, k, i);
      }
    }
  }

  /** A noise result names its type as its only category, unless the type
      is the empty name, and its level is never `light` with the default table. */
  lemma NoiseResultShape(table: Table, a: Article)
    ensures var c := Classify(table, a);
      c.isNoise && c.noiseType.value != "" ==> c.categories == [c.noiseType.value]
    ensures var c := Classify(table, a);
      c.isNoise && table == DefaultKeywords ==> c.noiseLevel in {Some(Noise), Some(Pr)}
  {
    var text := a.title + a.content;
    var m := Match(table, text);
    if m.noiseType.Some? {
      var i: nat :| BestMatch(table, text, i) && m.noiseType == Some(table[i].name);
      if table == DefaultKeywords {
        DefaultTypesAreNoiseOrPr(i);
      }
    }
  }

  /** Every type of the default table is advertising or an announcement. */
  lemma DefaultTypesAreNoiseOrPr(i: nat)
    requires i < |DefaultKeywords|
    ensures NoiseLevelOf(DefaultKeywords[i].name) in {Noise, Pr}
  {
  }

  /** Each list of the default table names a keyword once. */
  lemma DefaultListsDistinct()
    ensures NoDup(RecruitingKeywords) && NoDup(SalesKeywords) && NoDup(AdvertisingKeywords)
    ensures NoDup(CourseKeywords) && NoDup(CommunityKeywords) && NoDup(EventKeywords)
    ensures NoDup(FundingKeywords) && NoDup(AnnouncementKeywords)
  {
  }

  /** With the default table, an article is noise exactly when two
      different keywords of one type occur in its title and body. */
  lemma DefaultNoiseNeedsTwoKeywords(a: Article)
    ensures Classify(DefaultKeywords, a).isNoise <==>
      exists k :: 0 <= k < |DefaultKeywords| && |MatchingKeywords(DefaultKeywords[k].keywords, a.title + a.content)| >= 2
  {
    DefaultListsDistinct();
    ClassifyNoiseIffTwoHits(DefaultKeywords, a);
    forall k | 0 <= k < |DefaultKeywords|
      ensures Hits(DefaultKeywords[k].keywords, a.title + a.content)
        == |MatchingKeywords(DefaultKeywords[k].keywords, a.title + a.content)|
    {
      HitsCountsDistinctKeywords(DefaultKeywords[k].keywords, a.title + a.content);
    }
  }
}
