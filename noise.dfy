/** What the two keyword classifiers share: the shape of a keyword table (an
    ordered list of noise types, each with its keywords, as a Python dict
    iterates them), the per-type keyword count, the mapping from noise type
    to noise level, and the per-type bullet requirements of the abbreviated
    prompt. */
module Noise {
  import opened Text

  /** One entry of a keyword table: a noise type and the keywords that vote for it. */
  datatype Category = Category(name: string, keywords: seq<string>)

  /** Entries in the dictionary's iteration order. */
  type Table = seq<Category>

  datatype NoiseLevel = Noise | Pr | Light

  function LevelName(l: NoiseLevel): string
  {
    match l
    case Noise => "noise"
    case Pr => "pr"
    case Light => "light"
  }

  /** The noise types whose content is advertising. */
  const AdTypes: seq<string> := ["招聘", "带货", "广告", "课程", "社群", "活动推广"]

  /** The noise types whose content is an announcement. */
  const PrTypes: seq<string> := ["融资", "公关"]

  /** `_get_noise_level`: advertising types are `noise`, announcement types
      are `pr`, and every other name (including names a caller's own table
      introduces) is `light`. */
  function NoiseLevelOf(noiseType: string): (l: NoiseLevel)
    ensures l == Noise <==> noiseType in AdTypes
    ensures l == Pr <==> noiseType in PrTypes
    ensures l == Light <==> noiseType !in AdTypes + PrTypes
  {
    if noiseType in AdTypes then Noise
    else if noiseType in PrTypes then Pr
    else Light
  }

  /** The inner loop of both `_match_keywords`: how many entries of the
      keyword list occur in the text. An entry listed twice counts twice. */
  function Hits(keywords: seq<string>, text: string): (n: nat)
    ensures n <= |keywords|
  {
    if |keywords| == 0 then 0
    else Hits(keywords[..|keywords| - 1], text) + (if Contains(text, keywords[|keywords| - 1]) then 1 else 0)
  }

  /** The positions of the keyword list whose keyword occurs in the text. */
  ghost function MatchingPositions(keywords: seq<string>, text: string): set<nat>
  {
    set k: nat | k < |keywords| && Contains(text, keywords[k])
  }

  /** The distinct keywords of the list that occur in the text. */
  ghost function MatchingKeywords(keywords: seq<string>, text: string): set<string>
  {
    set kw | kw in keywords && Contains(text, kw)
  }

  /** `Hits` counts list positions: each entry whose keyword is a substring
      of the text adds one, however often it occurs there. */
  lemma {:induction false} HitsCountsPositions(keywords: seq<string>, text: string)
    ensures Hits(keywords, text) == |MatchingPositions(keywords, text)|
  {
    if |keywords| > 0 {
      var n := |keywords| - 1;
      var init := keywords[..n];
      HitsCountsPositions(init, text);
      var before := MatchingPositions(init, text);
      var after := MatchingPositions(keywords, text);
      if Contains(text, keywords[n]) {
        assert after == before + {n};
        assert n !in before;
      } else {
        assert after == before;
      }
    } else {
      assert MatchingPositions(keywords, text) == {};
    }
  }

  /** For a list without repeated entries, `Hits` is the number of distinct
      keywords found in the text. */
  lemma {:induction false} HitsCountsDistinctKeywords(keywords: seq<string>, text: string)
    requires NoDup(keywords)
    ensures Hits(keywords, text) == |MatchingKeywords(keywords, text)|
  {
    if |keywords| > 0 {
      var n := |keywords| - 1;
      var init := keywords[..n];
      assert NoDup(init);
      HitsCountsDistinctKeywords(init, text);
      var before := MatchingKeywords(init, text);
      var after := MatchingKeywords(keywords, text);
      assert keywords == init + [keywords[n]];
      assert keywords[n] !in init;
      if Contains(text, keywords[n]) {
        assert after == before + {keywords[n]};
      } else {
        assert after == before;
      }
    } else {
      assert MatchingKeywords(keywords, text) == {};
    }
  }

  /** The inner `for keyword in keywords` loop. */
  method CountHits(keywords: seq<string>, text: string) returns (typeCount: nat)
    ensures typeCount == Hits(keywords, text)
  {
    typeCount := 0;
    var k := 0;
    while k < |keywords|
      invariant 0 <= k <= |keywords|
      invariant typeCount == Hits(keywords[..k], text)
    {
      assert keywords[..k + 1][..k] == keywords[..k];
      if Contains(text, keywords[k]) {
        typeCount := typeCount + 1;
      }
      k := k + 1;
    }
    assert keywords[..k] == keywords;
  }

  /** `points_requirements`: the bullet fields the abbreviated prompt asks for, per noise type. */
  const PointsTable: map<string, string> := map[
    "招聘" := "- 招聘公司\n- 招聘岗位\n- 薪资范围\n- 工作地点\n- 岗位要求",
    "带货" := "- 产品名称\n- 产品价格\n- 优惠信息\n- 购买方式\n- 活动时间",
    "广告" := "- 品牌/产品\n- 核心信息\n- 推广内容",
    "课程" := "- 课程名称\n- 讲师/机构\n- 课程价格\n- 课程时长\n- 报名方式",
    "社群" := "- 社群名称\n- 社群类型\n- 加入方式\n- 费用信息",
    "活动推广" := "- 活动名称\n- 活动时间\n- 活动地点\n- 票价信息\n- 报名方式",
    "融资" := "- 融资公司\n- 融资轮次\n- 融资金额\n- 投资方\n- 公司估值",
    "公关" := "- 公司/品牌\n- 核心信息\n- 发布时间\n- 相关数据"
  ]

  const DefaultPoints: string := "- 要点1\n- 要点2\n- 要点3"

  /** `points_requirements.get(noise_type, default)`. */
  function PointsRequirements(noiseType: string): (r: string)
    ensures noiseType in PointsTable ==> r == PointsTable[noiseType]
    ensures noiseType !in PointsTable ==> r == DefaultPoints
  {
    if noiseType in PointsTable then PointsTable[noiseType] else DefaultPoints
  }

  /** Every named noise type has its own bullet list, none of them the
      three-placeholder default, and the named types are exactly those that
      `_get_noise_level` does not call `light`. */
  lemma PointsCoverEveryLevelledType(noiseType: string)
    ensures PointsRequirements(noiseType) == DefaultPoints <==> NoiseLevelOf(noiseType) == Light
  {
  }
}
