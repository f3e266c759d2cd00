/** `_parse_ai_response`, the parser that turns the text-generation output into
    `{summary, categories}`. Both summariser classes carry an identical copy.

    Each of its three regular expressions is modelled by the scan Python's
    `re` engine performs, and each scan is proved against a declarative
    description of what it finds:
    - tags: `re.search(r'【标签】(.+?)(?=【总结】|\n\n|$)', text)`;
    - summary: `re.search(r'【总结】\s*\n(.+)', text, re.DOTALL)`;
    - fallback: `re.sub(r'【标签】.+', '', text)`. */
module AiResponse {
  import opened Text
  import opened Common

  const TagMarker: string := "【标签】"
  const SummaryMarker: string := "【总结】"

  predicate MarkerAt(s: string, i: nat, m: string)
  {
    i + |m| <= |s| && s[i..i + |m|] == m
  }

  // ---------------------------------------------------------------------
  // The tag section: 【标签】(.+?)(?=【总结】|\n\n|$), no DOTALL
  // ---------------------------------------------------------------------

  /** Where the lookahead `(?=【总结】|\n\n|$)` succeeds. Without MULTILINE,
      `$` matches at the end of the text and just before a final newline. */
  predicate TagStopAt(s: string, j: nat)
    requires j <= |s|
  {
    || MarkerAt(s, j, SummaryMarker)
    || MarkerAt(s, j, "\n\n")
    || j == |s|
    || (j == |s| - 1 && s[j] == '\n')
  }

  /** The search matches with its start at `i` and its group `s[i+4..e]`: a
      tag marker at `i`, at least one character after it, no newline in the
      group (`.` excludes it), the lookahead holds at `e`, and the lazy `+?`
      stops there because it holds nowhere earlier. */
  ghost predicate TagGroupAt(s: string, i: nat, e: nat)
  {
    && MarkerAt(s, i, TagMarker)
    && i + |TagMarker| < e <= |s|
    && HasNo(s[i + |TagMarker|..e], '\n')
    && TagStopAt(s, e)
    && forall e' :: i + |TagMarker| < e' < e ==> !TagStopAt(s, e')
  }

  /** The lazy `.+?`, having consumed `s[..j]` without a newline, tries the
      lookahead at `j`, and otherwise takes one more character if it is not
      a newline. */
  function LazyTagEnd(s: string, j: nat): (r: Option<nat>)
    requires j <= |s|
    ensures r.Some? ==> j <= r.value <= |s| && TagStopAt(s, r.value)
    ensures r.Some? ==> HasNo(s[j..r.value], '\n')
    ensures r.Some? ==> forall e' :: j <= e' < r.value ==> !TagStopAt(s, e')
    ensures r.None? ==> forall e :: j <= e <= |s| && HasNo(s[j..e], '\n') ==> !TagStopAt(s, e)
    decreases |s| - j
  {
    if TagStopAt(s, j) then Some(j)
    else if j < |s| && s[j] != '\n' then
      var r := LazyTagEnd(s, j + 1);
      HasNoFrom(s, j, '\n');
      r
    else
      HasNoFrom(s, j, '\n');
      None
  }

  /** A stretch of `s` from `j` lacks `c` when its first character is not
      `c` and the rest lacks it. */
  lemma HasNoFrom(s: string, j: nat, c: char)
    requires j < |s|
    ensures forall e :: j < e <= |s| ==> (HasNo(s[j..e], c) <==> s[j] != c && HasNo(s[j + 1..e], c))
  {
    forall e | j < e <= |s|
      ensures HasNo(s[j..e], c) <==> s[j] != c && HasNo(s[j + 1..e], c)
    {
      assert s[j..e] == [s[j]] + s[j + 1..e];
    }
  }

  /** `re.search` for the tag pattern, trying start positions from `i` on. */
  function FindTagFrom(s: string, i: nat): (r: Option<(nat, nat)>)
    requires i <= |s|
    ensures r.Some? ==> i <= r.value.0 && TagGroupAt(s, r.value.0, r.value.1)
    ensures r.Some? ==> forall a: nat, e: nat :: i <= a < r.value.0 ==> !TagGroupAt(s, a, e)
    ensures r.None? ==> forall a: nat, e: nat :: i <= a ==> !TagGroupAt(s, a, e)
    decreases |s| - i
  {
    if i + |TagMarker| >= |s| then None
    else
      var b := i + |TagMarker|;
      var found := if MarkerAt(s, i, TagMarker) && s[b] != '\n' then LazyTagEnd(s, b + 1) else None;
      HasNoFrom(s, b, '\n');
      if found.Some? then
        Some((i, found.value))
      else
        var rest := FindTagFrom(s, i + 1);
        assert forall e: nat :: !TagGroupAt(s, i, e);
        rest
  }

  /** At most one group end fits a given start. */
  lemma TagGroupEndUnique(s: string, i: nat, e1: nat, e2: nat)
    requires TagGroupAt(s, i, e1) && TagGroupAt(s, i, e2)
    ensures e1 == e2
  {
  }

  /** `(.+?)` of the tag search, when it matches: the group of the leftmost
      matching marker, as `re.search` returns it. */
  function TagGroup(s: string): (r: Option<string>)
    ensures r.Some? ==>
      exists a: nat, e: nat ::
        && TagGroupAt(s, a, e)
        && r.value == s[a + |TagMarker|..e]
        && forall a': nat, e': nat :: a' < a ==> !TagGroupAt(s, a', e')
    ensures r.Some? ==> |r.value| > 0 && HasNo(r.value, '\n') && Contains(s, r.value)
    ensures r.None? <==> forall a: nat, e: nat :: !TagGroupAt(s, a, e)
  {
    match FindTagFrom(s, 0)
    case Some((a, e)) =>
      ContainsSlice(s, a + |TagMarker|, e);
      Some(s[a + |TagMarker|..e])
    case None => None
  }

  // ---------------------------------------------------------------------
  // The tag list: strip, re.split(r'[、,，\s]+'), drop blanks, set, [:5]
  // ---------------------------------------------------------------------

  predicate IsTagDelimiter(c: char)
  {
    c == '、' || c == ',' || c == '，' || IsSpace(c)
  }

  predicate NoDelimiter(t: string)
  {
    forall k :: 0 <= k < |t| ==> !IsTagDelimiter(t[k])
  }

  /** `t[i..j]` is a whole stretch between delimiters: it holds none, and a
      delimiter or an end of `t` stands on either side of it. */
  ghost predicate MaximalRun(t: string, i: nat, j: nat)
  {
    && i <= j <= |t|
    && (i == 0 || IsTagDelimiter(t[i - 1]))
    && (j == |t| || IsTagDelimiter(t[j]))
    && forall m :: i <= m < j ==> !IsTagDelimiter(t[m])
  }

  /** The first delimiter at or after `k`, or `|t|`. */
  function NextDelimiter(t: string, k: nat): (d: nat)
    requires k <= |t|
    ensures k <= d <= |t| && NoDelimiter(t[k..d])
    ensures forall m :: k <= m < d ==> !IsTagDelimiter(t[m])
    ensures d < |t| ==> IsTagDelimiter(t[d])
    decreases |t| - k
  {
    if k == |t| || IsTagDelimiter(t[k]) then k
    else
      var d := NextDelimiter(t, k + 1);
      assert forall m :: 0 < m < |t[k..d]| ==> t[k..d][m] == t[k + 1..d][m - 1];
      d
  }

  /** The end of the run of delimiters that starts at `k`. */
  function DelimiterRunEnd(t: string, k: nat): (e: nat)
    requires k <= |t|
    ensures k <= e <= |t|
    ensures forall m :: k <= m < e ==> IsTagDelimiter(t[m])
    ensures e < |t| ==> !IsTagDelimiter(t[e])
    decreases |t| - k
  {
    if k < |t| && IsTagDelimiter(t[k]) then DelimiterRunEnd(t, k + 1) else k
  }

  /** `x` is a whole stretch between delimiters of `t`. */
  ghost predicate IsRunOf(t: string, x: string)
  {
    exists i: nat, j: nat :: MaximalRun(t, i, j) && x == t[i..j]
  }

  /** Every item of `r` is a whole stretch between delimiters of `t`. */
  ghost predicate AllRuns(t: string, r: seq<string>)
  {
    forall k :: 0 <= k < |r| ==> IsRunOf(t, r[k])
  }

  /** Every non-empty whole stretch between delimiters of `t` is an item of `r`. */
  ghost predicate HasEveryRun(t: string, r: seq<string>)
  {
    forall i: nat, j: nat :: i < j && MaximalRun(t, i, j) ==> t[i..j] in r
  }

  /** `re.split(r'[、,，\s]+', t)`: the pieces between maximal runs of
      delimiters, with an empty piece in front when `t` starts with a
      delimiter and one at the back when it ends with one. Every piece is a
      whole stretch between delimiters, and every non-empty one is a piece. */
  function SplitOnDelimiters(t: string): (r: seq<string>)
    ensures |r| > 0
    ensures forall k :: 0 <= k < |r| ==> NoDelimiter(r[k])
    ensures AllRuns(t, r) && HasEveryRun(t, r)
    decreases |t|
  {
    var d := NextDelimiter(t, 0);
    if d == |t| then
      SplitWhole(t);
      [t]
    else
      var e := DelimiterRunEnd(t, d + 1);
      var rest := SplitOnDelimiters(t[e..]);
      SplitPiecesAreRuns(t, d, e, rest);
      SplitFindsEveryRun(t, d, e, rest);
      [t[..d]] + rest
  }

  /** A text without delimiters is its own single piece. */
  lemma SplitWhole(t: string)
    requires forall m :: 0 <= m < |t| ==> !IsTagDelimiter(t[m])
    ensures NoDelimiter(t) && AllRuns(t, [t]) && HasEveryRun(t, [t])
  {
    assert t[0..|t|] == t && MaximalRun(t, 0, |t|);
  }

  /** Every piece of the split is a whole stretch between delimiters: the
      first one ends at the first delimiter, and the others are stretches of
      the text after the first run of delimiters. */
  lemma SplitPiecesAreRuns(t: string, d: nat, e: nat, rest: seq<string>)
    requires d < e <= |t| && IsTagDelimiter(t[e - 1])
    requires (forall m :: 0 <= m < d ==> !IsTagDelimiter(t[m])) && IsTagDelimiter(t[d])
    requires forall k :: 0 <= k < |rest| ==> NoDelimiter(rest[k])
    requires AllRuns(t[e..], rest)
    ensures forall k :: 0 <= k < |[t[..d]] + rest| ==> NoDelimiter(([t[..d]] + rest)[k])
    ensures AllRuns(t, [t[..d]] + rest)
  {
    var r := [t[..d]] + rest;
    assert t[..d] == t[0..d] && MaximalRun(t, 0, d);
    forall k | 0 <= k < |r|
      ensures IsRunOf(t, r[k])
    {
      if k > 0 {
        assert IsRunOf(t[e..], rest[k - 1]);
        var i: nat, j: nat :| MaximalRun(t[e..], i, j) && rest[k - 1] == t[e..][i..j];
        assert t[e..][i..j] == t[e + i..e + j];
        assert MaximalRun(t, e + i, e + j);
      }
    }
  }

  /** Every whole stretch between delimiters is a piece of the split: the one
      that starts the text is the first piece, and any later one lies after
      the first run of delimiters. */
  lemma SplitFindsEveryRun(t: string, d: nat, e: nat, rest: seq<string>)
    requires d < e <= |t|
    requires (forall m :: 0 <= m < d ==> !IsTagDelimiter(t[m])) && IsTagDelimiter(t[d])
    requires forall m :: d + 1 <= m < e ==> IsTagDelimiter(t[m])
    requires HasEveryRun(t[e..], rest)
    ensures HasEveryRun(t, [t[..d]] + rest)
  {
    forall i: nat, j: nat | i < j && MaximalRun(t, i, j)
      ensures t[i..j] in [t[..d]] + rest
    {
      if i == 0 {
        assert j == d;
      } else {
        assert d <= i - 1 && !IsTagDelimiter(t[i]);
        assert e <= i;
        assert t[e..][i - e..j - e] == t[i..j];
        assert MaximalRun(t[e..], i - e, j - e);
      }
    }
  }

  /** `[c for c in pieces if c.strip()]`. */
  function KeepNonBlank(pieces: seq<string>): (r: seq<string>)
    ensures forall x :: x in r ==> x in pieces && Strip(x) != ""
    ensures forall x :: x in pieces && Strip(x) != "" ==> x in r
  {
    if |pieces| == 0 then []
    else
      var rest := KeepNonBlank(pieces[1..]);
      if Strip(pieces[0]) != "" then [pieces[0]] + rest else rest
  }

  /** The tag tokens of a captured tag section: exactly the non-empty whole
      stretches between delimiters of the stripped section, each of them a
      piece of the section. */
  function Tokens(group: string): (r: seq<string>)
    ensures forall k :: 0 <= k < |r| ==> |r[k]| > 0 && NoDelimiter(r[k])
    ensures AllRuns(Strip(group), r) && HasEveryRun(Strip(group), r)
    ensures forall k :: 0 <= k < |r| ==> Contains(group, r[k])
  {
    var pieces := SplitOnDelimiters(Strip(group));
    var kept := KeepNonBlank(pieces);
    KeptAreRuns(group, pieces, kept);
    KeptHasEveryRun(Strip(group), pieces, kept);
    kept
  }

  /** A non-empty text without delimiters has nothing to strip. */
  lemma StripKeepsRun(x: string)
    requires |x| > 0 && NoDelimiter(x)
    ensures Strip(x) == x
  {
    assert !IsTagDelimiter(x[0]) && !IsTagDelimiter(x[|x| - 1]);
  }

  /** The kept pieces are non-empty stretches between delimiters of the
      stripped section, each found in the section. */
  lemma KeptAreRuns(group: string, pieces: seq<string>, kept: seq<string>)
    requires forall k :: 0 <= k < |pieces| ==> NoDelimiter(pieces[k])
    requires AllRuns(Strip(group), pieces)
    requires forall x :: x in kept ==> x in pieces && Strip(x) != ""
    ensures forall k :: 0 <= k < |kept| ==> |kept[k]| > 0 && NoDelimiter(kept[k])
    ensures AllRuns(Strip(group), kept)
    ensures forall k :: 0 <= k < |kept| ==> Contains(group, kept[k])
  {
    StripIsInfix(group);
    var a, b :| 0 <= a <= b <= |group| && Strip(group) == group[a..b] && AllSpace(group[..a]) && AllSpace(group[b..]);
    ContainsSlice(group, a, b);
    forall k | 0 <= k < |kept|
      ensures |kept[k]| > 0 && NoDelimiter(kept[k])
      ensures IsRunOf(Strip(group), kept[k])
      ensures Contains(group, kept[k])
    {
      assert kept[k] in kept;
      var p :| 0 <= p < |pieces| && pieces[p] == kept[k];
      assert IsRunOf(Strip(group), pieces[p]);
      var i: nat, j: nat :| MaximalRun(Strip(group), i, j) && pieces[p] == Strip(group)[i..j];
      ContainsSlice(Strip(group), i, j);
      ContainsTrans(group, Strip(group), kept[k]);
    }
  }

  /** Every non-empty stretch between delimiters is kept: it has no space,
      so it is not blank. */
  lemma KeptHasEveryRun(t: string, pieces: seq<string>, kept: seq<string>)
    requires HasEveryRun(t, pieces)
    requires forall x :: x in pieces && Strip(x) != "" ==> x in kept
    ensures HasEveryRun(t, kept)
  {
    forall i: nat, j: nat | i < j && MaximalRun(t, i, j)
      ensures t[i..j] in kept
    {
      var x := t[i..j];
      assert NoDelimiter(x) by {
        forall m | 0 <= m < |x|
          ensures !IsTagDelimiter(x[m])
        {
          assert x[m] == t[i + m];
        }
      }
      StripKeepsRun(x);
    }
  }

  /** `list(set(xs))` in one of the orders Python may produce: the order of
      first occurrence. */
  function Dedupe<T(==)>(xs: seq<T>): (r: seq<T>)
    ensures NoDup(r) && Elems(r) == Elems(xs)
  {
    if |xs| == 0 then []
    else
      var init := xs[..|xs| - 1];
      var last := xs[|xs| - 1];
      var r := Dedupe(init);
      assert Elems(xs) == Elems(init) + {last};
      if last in r then r else r + [last]
  }

  /** What Python promises of `list(set(tokens))[:5]`, whatever order the set
      iterates in: no repeated tag, only tokens, and as many tags as there are
      distinct tokens, up to five. */
  ghost predicate AdmissibleTagList(tokens: seq<string>, cats: seq<string>)
  {
    && NoDup(cats)
    && (forall k :: 0 <= k < |cats| ==> cats[k] in tokens)
    && |cats| == if |Elems(tokens)| < 5 then |Elems(tokens)| else 5
  }

  /** The first five of the deduplicated tokens are an admissible tag list. */
  lemma FirstFiveAdmissible(tokens: seq<string>)
    ensures AdmissibleTagList(tokens, Take(Dedupe(tokens), 5))
  {
    var unique := Dedupe(tokens);
    var cats := Take(unique, 5);
    NoDupCard(unique);
    forall k | 0 <= k < |cats|
      ensures cats[k] in tokens
    {
      assert cats[k] == unique[k];
      assert unique[k] in Elems(unique);
    }
    forall i, j | 0 <= i < j < |cats|
      ensures cats[i] != cats[j]
    {
      assert cats[i] == unique[i] && cats[j] == unique[j];
    }
  }

  /** The categories parsed from a tag section. */
  function TagList(group: string): (cats: seq<string>)
    ensures AdmissibleTagList(Tokens(group), cats)
  {
    var cats := Take(Dedupe(Tokens(group)), 5);
    FirstFiveAdmissible(Tokens(group));
    cats
  }

  // ---------------------------------------------------------------------
  // The summary section: 【总结】\s*\n(.+) with DOTALL
  // ---------------------------------------------------------------------

  /** The end of the run of spaces that starts at `k`: where greedy `\s*` stops. */
  function SpaceRunEnd(s: string, k: nat): (e: nat)
    requires k <= |s|
    ensures k <= e <= |s| && AllSpace(s[k..e])
    ensures e < |s| ==> !IsSpace(s[e])
    decreases |s| - k
  {
    if k < |s| && IsSpace(s[k]) then
      var e := SpaceRunEnd(s, k + 1);
      assert forall m :: 0 < m < |s[k..e]| ==> s[k..e][m] == s[k + 1..e][m - 1];
      e
    else k
  }

  /** A newline at `p` after which `.+` still finds a character. */
  predicate NewlineBeforeMore(s: string, p: nat)
  {
    p + 1 < |s| && s[p] == '\n'
  }

  /** The backtracking of `\s*\n(.+)`: `\s*` gives back characters from its
      end `q` until the next one is a newline that leaves at least one
      character for `.+`; the last such newline below `q` wins. */
  function BacktrackToNewline(s: string, lo: nat, q: nat): (r: Option<nat>)
    requires lo <= q <= |s|
    ensures r.Some? ==> lo <= r.value < q && NewlineBeforeMore(s, r.value)
    ensures r.Some? ==> forall p :: r.value < p < q ==> !NewlineBeforeMore(s, p)
    ensures r.None? ==> forall p :: lo <= p < q ==> !NewlineBeforeMore(s, p)
    decreases q
  {
    if q == lo then None
    else if NewlineBeforeMore(s, q - 1) then Some(q - 1)
    else BacktrackToNewline(s, lo, q - 1)
  }

  /** The summary search matches at marker `a`: the spaces that follow the
      marker contain a newline with at least one character after it. */
  ghost predicate SummaryMatchAt(s: string, a: nat)
  {
    && MarkerAt(s, a, SummaryMarker)
    && exists p :: a + |SummaryMarker| <= p && NewlineBeforeMore(s, p) && AllSpace(s[a + |SummaryMarker|..p])
  }

  /** A newline inside a run of spaces from `b` lies before the run's end. */
  lemma SpaceNewlineInRun(s: string, b: nat)
    requires b <= |s|
    ensures forall p: nat :: b <= p && NewlineBeforeMore(s, p) && AllSpace(s[b..p]) ==> p < SpaceRunEnd(s, b)
  {
    var k := SpaceRunEnd(s, b);
    forall p: nat | b <= p && NewlineBeforeMore(s, p) && AllSpace(s[b..p])
      ensures p < k
    {
      if p > k {
        assert false;
      }
    }
  }

  /** `re.search` for the summary pattern from position `i`: the marker
      position and the newline that `\n` matched. */
  function FindSummaryFrom(s: string, i: nat): (r: Option<(nat, nat)>)
    requires i <= |s|
    ensures r.Some? ==> i <= r.value.0 && SummaryMatchAt(s, r.value.0)
    ensures r.Some? ==> r.value.0 + |SummaryMarker| <= r.value.1 && NewlineBeforeMore(s, r.value.1)
    ensures r.Some? ==> AllSpace(s[r.value.0 + |SummaryMarker|..r.value.1])
    ensures r.Some? ==> forall a :: i <= a < r.value.0 ==> !SummaryMatchAt(s, a)
    ensures r.None? ==> forall a :: i <= a ==> !SummaryMatchAt(s, a)
    decreases |s| - i
  {
    if i + |SummaryMarker| > |s| then None
    else
      var b := i + |SummaryMarker|;
      var k := SpaceRunEnd(s, b);
      var p := if MarkerAt(s, i, SummaryMarker) then BacktrackToNewline(s, b, k) else None;
      if p.Some? then
        AllSpaceSlice(s, b, k, b, p.value);
        Some((i, p.value))
      else
        var rest := FindSummaryFrom(s, i + 1);
        SpaceNewlineInRun(s, b);
        rest
  }

  // ---------------------------------------------------------------------
  // The fallback: re.sub(r'【标签】.+', '', text)
  // ---------------------------------------------------------------------

  /** The first newline at or after `k`, or `|s|`: where the greedy `.+` stops. */
  function LineEnd(s: string, k: nat): (e: nat)
    requires k <= |s|
    ensures k <= e <= |s| && HasNo(s[k..e], '\n')
    ensures e < |s| ==> s[e] == '\n'
    decreases |s| - k
  {
    if k < |s| && s[k] != '\n' then
      var e := LineEnd(s, k + 1);
      assert forall m :: 0 < m < |s[k..e]| ==> s[k..e][m] == s[k + 1..e][m - 1];
      e
    else k
  }

  /** `【标签】.+` matches at `i`: the marker and at least one more character on its line. */
  predicate TagLineAt(s: string, i: nat)
  {
    MarkerAt(s, i, TagMarker) && i + |TagMarker| < |s| && s[i + |TagMarker|] != '\n'
  }

  /** `re.sub(r'【标签】.+', '', s)`: scanning left to right, every tag
      marker that has text after it on its line is deleted together with the
      rest of that line; the newline itself stays. */
  function RemoveTagLines(s: string): (r: string)
    ensures |r| <= |s|
    decreases |s|
  {
    if |s| == 0 then ""
    else if TagLineAt(s, 0) then RemoveTagLines(s[LineEnd(s, |TagMarker|)..])
    else [s[0]] + RemoveTagLines(s[1..])
  }

  ghost predicate NoTagLine(s: string)
  {
    forall i: nat :: !TagLineAt(s, i)
  }

  /** A character that starts no tag line is kept. */
  lemma KeptCharacter(t: string)
    requires |t| > 0 && !TagLineAt(t, 0)
    ensures RemoveTagLines(t) == [t[0]] + RemoveTagLines(t[1..])
  {
  }

  /** Where a tag line is deleted, the result goes on with its newline. */
  lemma DeletedLineLeavesNewline(t: string)
    ensures TagLineAt(t, 0) ==> RemoveTagLines(t) == [] || RemoveTagLines(t)[0] == '\n'
  {
    var e := if |TagMarker| <= |t| then LineEnd(t, |TagMarker|) else |t|;
    if TagLineAt(t, 0) && e < |t| {
      var u := t[e..];
      assert u[0] == '\n' && !TagLineAt(u, 0);
      assert RemoveTagLines(u) == [u[0]] + RemoveTagLines(u[1..]);
    }
  }

  /** What the substitution leaves in front is taken from the text
      unchanged, as long as it contains no newline: a deleted line always
      leaves its newline (or the end of the text) behind. */
  lemma {:induction false} RemoveTagLinesKeepsHead(t: string, k: nat)
    requires k <= |RemoveTagLines(t)| && HasNo(RemoveTagLines(t)[..k], '\n')
    ensures k <= |t| && t[..k] == RemoveTagLines(t)[..k]
    decreases k
  {
    var r := RemoveTagLines(t);
    if k > 0 {
      assert r[0] == r[..k][0];
      DeletedLineLeavesNewline(t);
      KeptCharacter(t);
      var r1 := RemoveTagLines(t[1..]);
      assert r1[..k - 1] == r[..k][1..];
      RemoveTagLinesKeepsHead(t[1..], k - 1);
      assert t[..k] == [t[0]] + t[1..][..k - 1];
    }
  }

  /** The tag marker holds no newline. */
  lemma TagMarkerHasNoNewline()
    ensures HasNo(TagMarker, '\n')
  {
    forall k | 0 <= k < |TagMarker|
      ensures TagMarker[k] != '\n'
    {
      assert k == 0 || k == 1 || k == 2 || k == 3;
    }
  }

  /** A tag line's marker and the character after it hold no newline. */
  lemma TagLineHeadHasNoNewline(r: string)
    requires TagLineAt(r, 0)
    ensures HasNo(r[..|TagMarker| + 1], '\n')
  {
    var n := |TagMarker|;
    var h := r[..n + 1];
    TagMarkerHasNoNewline();
    forall m | 0 <= m < |h|
      ensures h[m] != '\n'
    {
      if m < n {
        assert h[m] == r[..n][m] == TagMarker[m];
      }
    }
  }

  /** When the first character is kept, a tag line at the front of the
      result was already a tag line of the text. */
  lemma HeadTagLineComesFromText(s: string)
    requires |s| > 0
    ensures TagLineAt([s[0]] + RemoveTagLines(s[1..]), 0) ==> TagLineAt(s, 0)
  {
    var r := [s[0]] + RemoveTagLines(s[1..]);
    var r1 := RemoveTagLines(s[1..]);
    if TagLineAt(r, 0) {
      var n := |TagMarker|;
      TagLineHeadHasNoNewline(r);
      assert r1[..n] == r[1..n + 1];
      RemoveTagLinesKeepsHead(s[1..], n);
      assert s[..n + 1] == [s[0]] + s[1..][..n];
      assert s[..n + 1] == r[..n + 1];
      assert s[..n] == r[..n];
    }
  }

  /** The substitution leaves no tag line behind: a marker in the result
      is never followed by text on its line. */
  lemma {:induction false} RemoveTagLinesLeavesNone(s: string)
    ensures NoTagLine(RemoveTagLines(s))
    decreases |s|
  {
    if |s| > 0 {
      if TagLineAt(s, 0) {
        RemoveTagLinesLeavesNone(s[LineEnd(s, |TagMarker|)..]);
      } else {
        var r := RemoveTagLines(s);
        var r1 := RemoveTagLines(s[1..]);
        assert r == [s[0]] + r1;
        RemoveTagLinesLeavesNone(s[1..]);
        forall i: nat
          ensures !TagLineAt(r, i)
        {
          if i > 0 {
            assert !TagLineAt(r1, i - 1);
            if i + |TagMarker| < |r| {
              assert r[i..i + |TagMarker|] == r1[i - 1..i - 1 + |TagMarker|];
              assert r[i + |TagMarker|] == r1[i - 1 + |TagMarker|];
            }
          } else {
            HeadTagLineComesFromText(s);
          }
        }
      }
    }
  }

  /** A text without tag lines passes through the substitution unchanged. */
  lemma {:induction false} RemoveTagLinesFixesClean(s: string)
    requires NoTagLine(s)
    ensures RemoveTagLines(s) == s
    decreases |s|
  {
    if |s| > 0 {
      assert !TagLineAt(s, 0);
      forall i: nat
        ensures !TagLineAt(s[1..], i)
      {
        if TagLineAt(s[1..], i) {
          assert s[1..][i..i + |TagMarker|] == s[i + 1..i + 1 + |TagMarker|];
          assert TagLineAt(s, i + 1);
        }
      }
      RemoveTagLinesFixesClean(s[1..]);
    }
  }

  /** Applying the fallback substitution twice changes nothing more. */
  lemma RemoveTagLinesIdempotent(s: string)
    ensures RemoveTagLines(RemoveTagLines(s)) == RemoveTagLines(s)
  {
    RemoveTagLinesLeavesNone(s);
    RemoveTagLinesFixesClean(RemoveTagLines(s));
  }

  function CountChar(s: string, c: char): nat
  {
    if |s| == 0 then 0 else (if s[0] == c then 1 else 0) + CountChar(s[1..], c)
  }

  /** The count of a character is additive over concatenation. */
  lemma {:induction false} CountCharAppend(v: string, w: string, c: char)
    ensures CountChar(v + w, c) == CountChar(v, c) + CountChar(w, c)
  {
    if |v| > 0 {
      assert (v + w)[1..] == v[1..] + w;
      CountCharAppend(v[1..], w, c);
    } else {
      assert v + w == w;
    }
  }

  /** A text lacks a character exactly when its count is 0. */
  lemma {:induction false} HasNoCounts(v: string, c: char)
    requires HasNo(v, c)
    ensures CountChar(v, c) == 0
  {
    if |v| > 0 {
      HasNoCounts(v[1..], c);
    }
  }

  /** Only whole line remainders are deleted: the result has exactly the
      newlines of the text. */
  lemma {:induction false} RemoveTagLinesKeepsNewlines(s: string)
    ensures CountChar(RemoveTagLines(s), '\n') == CountChar(s, '\n')
    decreases |s|
  {
    if |s| > 0 {
      if TagLineAt(s, 0) {
        var e := LineEnd(s, |TagMarker|);
        assert s == s[..e] + s[e..];
        CountCharAppend(s[..e], s[e..], '\n');
        assert s[..e] == s[..|TagMarker|] + s[|TagMarker|..e];
        CountCharAppend(s[..|TagMarker|], s[|TagMarker|..e], '\n');
        HasNoCounts(s[|TagMarker|..e], '\n');
        assert s[..|TagMarker|] == TagMarker;
        RemoveTagLinesKeepsNewlines(s[e..]);
      } else {
        RemoveTagLinesKeepsNewlines(s[1..]);
      }
    }
  }

  // ---------------------------------------------------------------------
  // The parser
  // ---------------------------------------------------------------------

  /** The tag part of `_parse_ai_response`. */
  function ParseCategories(text: string): (cats: seq<string>)
    ensures TagGroup(text).None? ==> cats == []
    ensures TagGroup(text).Some? ==> AdmissibleTagList(Tokens(TagGroup(text).value), cats)
    ensures TagGroup(text).Some? ==> forall k :: 0 <= k < |cats| ==> Contains(TagGroup(text).value, cats[k])
    ensures forall k :: 0 <= k < |cats| ==> Contains(text, cats[k])
  {
    match TagGroup(text)
    case None => []
    case Some(group) =>
      var cats := TagList(group);
      forall k | 0 <= k < |cats|
        ensures Contains(group, cats[k]) && Contains(text, cats[k])
      {
        var p :| 0 <= p < |Tokens(group)| && Tokens(group)[p] == cats[k];
        ContainsTrans(text, group, cats[k]);
      }
      cats
  }

  /** `a` is where the summary search matches: the earliest marker with a match. */
  ghost predicate FirstSummaryMatch(s: string, a: nat)
  {
    SummaryMatchAt(s, a) && forall a': nat :: a' < a ==> !SummaryMatchAt(s, a')
  }

  /** The summary part of `_parse_ai_response`: the stripped `(.+)` of the
      summary search, or, when there is no match, the text with its tag lines
      removed, stripped. */
  function ParseSummary(text: string): (summary: string)
    ensures forall a: nat :: FirstSummaryMatch(text, a) ==> summary == Strip(text[a + |SummaryMarker|..])
    ensures (forall a: nat :: !SummaryMatchAt(text, a)) ==> summary == Strip(RemoveTagLines(text))
  {
    match FindSummaryFrom(text, 0)
    case Some((a, p)) =>
      SummaryBodyIgnoresLeadingSpace(text, a, p);
      assert forall a0: nat :: FirstSummaryMatch(text, a0) ==> a0 == a;
      Strip(text[p + 1..])
    case None => Strip(RemoveTagLines(text))
  }

  /** `_parse_ai_response`. It is total: every text gives a result. */
  function ParseAiResponse(text: string): (r: SummaryResult)
    ensures |r.categories| <= 5 && NoDup(r.categories)
    ensures forall k :: 0 <= k < |r.categories| ==> |r.categories[k]| > 0 && NoDelimiter(r.categories[k])
    ensures TagGroup(text).None? ==> r.categories == []
    ensures TagGroup(text).Some? ==> AdmissibleTagList(Tokens(TagGroup(text).value), r.categories)
    ensures forall k :: 0 <= k < |r.categories| ==> Contains(text, r.categories[k])
    ensures r.summary == ParseSummary(text)
  {
    var cats := ParseCategories(text);
    if TagGroup(text).Some? then
      AdmissibleTagsAreTokens(Tokens(TagGroup(text).value), cats);
      SummaryResult(ParseSummary(text), cats)
    else
      SummaryResult(ParseSummary(text), cats)
  }

  /** An admissible tag list of candidate tags consists of candidate tags, at most five. */
  lemma AdmissibleTagsAreTokens(tokens: seq<string>, cats: seq<string>)
    requires AdmissibleTagList(tokens, cats)
    requires forall k :: 0 <= k < |tokens| ==> |tokens[k]| > 0 && NoDelimiter(tokens[k])
    ensures |cats| <= 5
    ensures forall k :: 0 <= k < |cats| ==> |cats[k]| > 0 && NoDelimiter(cats[k])
  {
    forall k | 0 <= k < |cats|
      ensures |cats[k]| > 0 && NoDelimiter(cats[k])
    {
      var i :| 0 <= i < |tokens| && tokens[i] == cats[k];
    }
  }

  /** Whichever newline the backtracking chooses, the stripped capture is
      the stripped text after the summary marker. */
  lemma SummaryBodyIgnoresLeadingSpace(s: string, a: nat, p: nat)
    requires a + |SummaryMarker| <= p && NewlineBeforeMore(s, p)
    requires AllSpace(s[a + |SummaryMarker|..p])
    ensures Strip(s[p + 1..]) == Strip(s[a + |SummaryMarker|..])
  {
    var b := a + |SummaryMarker|;
    assert s[b..p] == s[a + |SummaryMarker|..p];
    SpaceRunToNewline(s, b, p);
    assert Strip(s[b..]) == Strip(s[a + |SummaryMarker|..]);
  }

  /** Spaces up to a newline with text after it do not change the stripped rest. */
  lemma SpaceRunToNewline(s: string, b: nat, p: nat)
    requires b <= p && NewlineBeforeMore(s, p)
    requires AllSpace(s[b..p])
    ensures Strip(s[p + 1..]) == Strip(s[b..])
  {
    AllSpaceAt(s, b, p);
    LStripSkipsSpaceFrom(s, b, p);
    LStripSkipsSpaceFrom(s, p, p + 1);
  }
}
