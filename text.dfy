/** Python string primitives that the model relies on: the whitespace class
    shared by `str.strip()` and the regular-expression class `\s`, stripping,
    the `in` operator on strings, slicing with `[:n]`, `str.join` and the
    decimal rendering of a non-negative `int`. */
module Text {

  /** Python's `str.isspace()` on one character; `str.strip()` and the
      regular-expression class `\s` of a `str` pattern use this same set. */
  predicate IsSpace(c: char)
  {
    || ('\t' <= c <= '\r')
    || ('\U{1C}' <= c <= '\U{1F}')
    || c == ' ' || c == '\U{85}' || c == '\U{A0}' || c == '\U{1680}'
    || ('\U{2000}' <= c <= '\U{200A}')
    || c == '\U{2028}' || c == '\U{2029}' || c == '\U{202F}' || c == '\U{205F}' || c == '\U{3000}'
  }

  predicate AllSpace(s: string)
  {
    forall k :: 0 <= k < |s| ==> IsSpace(s[k])
  }

  predicate HasNo(s: string, c: char)
  {
    forall k :: 0 <= k < |s| ==> s[k] != c
  }

  /** Every piece of an all-space stretch is all space. */
  lemma AllSpaceSlice(s: string, i: nat, j: nat, i': nat, j': nat)
    requires i <= i' <= j' <= j <= |s| && AllSpace(s[i..j])
    ensures AllSpace(s[i'..j'])
  {
    forall m | 0 <= m < j' - i'
      ensures IsSpace(s[i'..j'][m])
    {
      assert s[i'..j'][m] == s[i..j][m + i' - i];
    }
  }

  /** Joining two all-space stretches gives an all-space stretch. */
  lemma AllSpaceConcat(w: string, v: string)
    requires AllSpace(w) && AllSpace(v)
    ensures AllSpace(w + v)
  {
    forall m | 0 <= m < |w + v|
      ensures IsSpace((w + v)[m])
    {
      if m >= |w| {
        assert (w + v)[m] == v[m - |w|];
      }
    }
  }

  /** `s.lstrip()`: the suffix of `s` left after every leading space. */
  function LStrip(s: string): string
  {
    if |s| > 0 && IsSpace(s[0]) then LStrip(s[1..]) else s
  }

  /** `s.rstrip()`: the prefix of `s` left after every trailing space. */
  function RStrip(s: string): string
  {
    if |s| > 0 && IsSpace(s[|s| - 1]) then RStrip(s[..|s| - 1]) else s
  }

  /** `s.strip()`. */
  function Strip(s: string): string
  {
    RStrip(LStrip(s))
  }

  /** `lstrip` removes exactly the leading run of spaces. */
  lemma {:induction false} LStripShape(s: string)
    ensures |LStrip(s)| <= |s| && LStrip(s) == s[|s| - |LStrip(s)|..]
    ensures AllSpace(s[..|s| - |LStrip(s)|])
    ensures LStrip(s) == [] || !IsSpace(LStrip(s)[0])
  {
    if |s| > 0 && IsSpace(s[0]) {
      var t := s[1..];
      LStripShape(t);
      var k := |s| - |LStrip(s)|;
      assert s[k..] == t[k - 1..];
      forall m | 0 <= m < k
        ensures IsSpace(s[..k][m])
      {
        if m > 0 {
          assert s[..k][m] == t[..k - 1][m - 1];
        }
      }
    }
  }

  /** `rstrip` removes exactly the trailing run of spaces. */
  lemma {:induction false} RStripShape(s: string)
    ensures |RStrip(s)| <= |s| && RStrip(s) == s[..|RStrip(s)|]
    ensures AllSpace(s[|RStrip(s)|..])
    ensures RStrip(s) == [] || !IsSpace(RStrip(s)[|RStrip(s)| - 1])
  {
    if |s| > 0 && IsSpace(s[|s| - 1]) {
      var t := s[..|s| - 1];
      RStripShape(t);
      var k := |RStrip(s)|;
      assert s[..k] == t[..k];
      forall m | 0 <= m < |s| - k
        ensures IsSpace(s[k..][m])
      {
        if m < |t| - k {
          assert s[k..][m] == t[k..][m];
        }
      }
    }
  }

  /** `str.strip()`: the result neither starts nor ends with a space. */
  lemma StripTrims(s: string)
    ensures Strip(s) == [] || (!IsSpace(Strip(s)[0]) && !IsSpace(Strip(s)[|Strip(s)| - 1]))
  {
    var l := LStrip(s);
    LStripShape(s);
    RStripShape(l);
    if Strip(s) != [] {
      assert Strip(s)[0] == l[0];
    }
  }

  /** The stripped text is a contiguous piece of `s` with only spaces around it. */
  lemma StripIsInfix(s: string)
    ensures exists i, j :: 0 <= i <= j <= |s| && Strip(s) == s[i..j] && AllSpace(s[..i]) && AllSpace(s[j..])
  {
    var l := LStrip(s);
    LStripShape(s);
    RStripShape(l);
    var i := |s| - |l|;
    var j := i + |RStrip(l)|;
    assert s[i..j] == l[..|RStrip(l)|];
    assert s[j..] == l[|RStrip(l)|..];
  }

  /** Leading spaces never survive a strip, so they can be dropped beforehand. */
  lemma {:induction false} LStripSkipsSpace(w: string, t: string)
    requires AllSpace(w)
    ensures LStrip(w + t) == LStrip(t)
  {
    if |w| > 0 {
      assert (w + t)[1..] == w[1..] + t;
      LStripSkipsSpace(w[1..], t);
    } else {
      assert w + t == t;
    }
  }

  /** An all-space slice, position by position. */
  lemma AllSpaceAt(s: string, b: nat, q: nat)
    requires b <= q <= |s| && AllSpace(s[b..q])
    ensures forall j :: b <= j < q ==> IsSpace(s[j])
  {
    forall j | b <= j < q
      ensures IsSpace(s[j])
    {
      assert s[j] == s[b..q][j - b];
    }
  }

  /** The same, for a stretch of spaces between two positions of one text. */
  lemma {:induction false} LStripSkipsSpaceFrom(s: string, b: nat, q: nat)
    requires b <= q <= |s|
    requires forall j :: b <= j < q ==> IsSpace(s[j])
    ensures Strip(s[b..]) == Strip(s[q..])
    decreases q - b
  {
    if b < q {
      assert s[b..][0] == s[b];
      assert s[b..][1..] == s[b + 1..];
      LStripSkipsSpaceFrom(s, b + 1, q);
    }
  }

  /** Leading whitespace does not change the stripped text. */
  lemma StripSkipsSpace(w: string, t: string)
    requires AllSpace(w)
    ensures Strip(w + t) == Strip(t)
  {
    LStripSkipsSpace(w, t);
  }

  /** Python's `kw in text` for strings: `kw` occurs as a contiguous piece of `text`. */
  predicate Contains(text: string, kw: string)
    decreases |text|
  {
    kw <= text || (|text| > 0 && Contains(text[1..], kw))
  }

  ghost predicate OccursAt(text: string, kw: string, i: int)
  {
    0 <= i && i + |kw| <= |text| && text[i..i + |kw|] == kw
  }

  /** `Contains` is the substring test: some position of `text` starts a copy of `kw`. */
  lemma {:induction false} ContainsIffOccurs(text: string, kw: string)
    ensures Contains(text, kw) <==> exists i :: OccursAt(text, kw, i)
    decreases |text|
  {
    if kw <= text {
      assert OccursAt(text, kw, 0);
    } else if |text| > 0 {
      ContainsIffOccurs(text[1..], kw);
      forall i | OccursAt(text[1..], kw, i)
        ensures OccursAt(text, kw, i + 1)
      {
        assert text[i + 1..i + 1 + |kw|] == text[1..][i..i + |kw|];
      }
      forall i | OccursAt(text, kw, i)
        ensures OccursAt(text[1..], kw, i - 1)
      {
        assert text[1..][i - 1..i - 1 + |kw|] == text[i..i + |kw|];
      }
    }
  }

  /** Whatever stands around it, a piece of a text is found in it. */
  lemma ContainsMiddle(u: string, v: string, w: string)
    ensures Contains(u + v + w, v)
  {
    var t := u + v + w;
    assert t[|u|..|u| + |v|] == v;
    assert OccursAt(t, v, |u|);
    ContainsIffOccurs(t, v);
  }

  /** Every slice of a text is found in it. */
  lemma ContainsSlice(t: string, i: nat, j: nat)
    requires i <= j <= |t|
    ensures Contains(t, t[i..j])
  {
    assert OccursAt(t, t[i..j], i);
    ContainsIffOccurs(t, t[i..j]);
  }

  /** What is found in a piece of a text is found in the text. */
  lemma ContainsTrans(a: string, b: string, c: string)
    requires Contains(a, b) && Contains(b, c)
    ensures Contains(a, c)
  {
    ContainsIffOccurs(a, b);
    ContainsIffOccurs(b, c);
    var p :| OccursAt(a, b, p);
    var q :| OccursAt(b, c, q);
    forall m | 0 <= m < |c|
      ensures a[p + q..p + q + |c|][m] == c[m]
    {
      assert c[m] == b[q + m] == a[p + q + m];
    }
    assert OccursAt(a, c, p + q);
    ContainsIffOccurs(a, c);
  }

  /** Concatenation regroups freely; callers regroup longer concatenations
      one step at a time with it, which keeps each step cheap. */
  lemma Assoc<T>(a: seq<T>, b: seq<T>, c: seq<T>)
    ensures a + b + c == a + (b + c)
  {
  }

  /** A prefix of `y` is a prefix of `y` followed by anything. */
  lemma PrefixOfAppend<T>(x: seq<T>, y: seq<T>, z: seq<T>)
    requires x <= y
    ensures x <= y + z
  {
    assert (y + z)[..|x|] == y[..|x|];
  }

  /** A prefix of a sequence followed by the rest gives the sequence back. */
  lemma PrefixSplit<T>(p: seq<T>, t: seq<T>)
    requires p <= t
    ensures t == p + t[|p|..]
  {
  }

  /** Cutting a concatenation where its tail starts gives back both parts. */
  lemma SplitAtTail<T>(head: seq<T>, tail: seq<T>)
    ensures (head + tail)[|head + tail| - |tail|..] == tail && (head + tail)[..|head + tail| - |tail|] == head
  {
  }

  /** A text found in the tail of a concatenation is found in the whole. */
  lemma ContainsInSuffix(u: string, t: string, kw: string)
    requires Contains(t, kw)
    ensures Contains(u + t, kw)
  {
    ContainsIffOccurs(t, kw);
    var i :| OccursAt(t, kw, i);
    var w := u + t;
    assert w[|u| + i..|u| + i + |kw|] == t[i..i + |kw|];
    assert OccursAt(w, kw, |u| + i);
    ContainsIffOccurs(w, kw);
  }

  /** Python's `s[:n]` for a non-negative `n`. */
  function Take<T>(s: seq<T>, n: nat): (r: seq<T>)
    ensures |r| == if |s| < n then |s| else n
    ensures r <= s
  {
    if |s| <= n then s else s[..n]
  }

  /** `sep.join(parts)`. */
  function Join(parts: seq<string>, sep: string): string
  {
    if |parts| == 0 then ""
    else if |parts| == 1 then parts[0]
    else parts[0] + sep + Join(parts[1..], sep)
  }

  /** `sep.join(parts)` loses no part: it starts with the first and every
      part occurs in it. */
  lemma {:induction false} JoinContainsEach(parts: seq<string>, sep: string)
    ensures |parts| > 0 ==> parts[0] <= Join(parts, sep)
    ensures forall k :: 0 <= k < |parts| ==> Contains(Join(parts, sep), parts[k])
    decreases |parts|
  {
    if |parts| == 1 {
      ContainsMiddle("", parts[0], "");
      assert "" + parts[0] + "" == parts[0];
    } else if |parts| > 1 {
      var rest := Join(parts[1..], sep);
      JoinContainsEach(parts[1..], sep);
      ContainsMiddle("", parts[0], sep + rest);
      assert "" + parts[0] + (sep + rest) == Join(parts, sep);
      forall k | 1 <= k < |parts|
        ensures Contains(Join(parts, sep), parts[k])
      {
        assert parts[1..][k - 1] == parts[k];
        ContainsInSuffix(parts[0] + sep, rest, parts[k]);
        assert parts[0] + sep + rest == Join(parts, sep);
      }
    }
  }

  function DigitChar(d: nat): (c: char)
    requires d < 10
    ensures '0' <= c <= '9'
  {
    ['0', '1', '2', '3', '4', '5', '6', '7', '8', '9'][d]
  }

  /** `str(n)` for a non-negative `int`: decimal digits, no leading zero. */
  function NatToString(n: nat): (r: string)
    ensures |r| > 0 && (forall k :: 0 <= k < |r| ==> '0' <= r[k] <= '9')
    ensures |r| > 1 ==> r[0] != '0'
  {
    if n < 10 then [DigitChar(n)] else NatToString(n / 10) + [DigitChar(n % 10)]
  }

  function DigitValue(c: char): nat
    requires '0' <= c <= '9'
  {
    (c as int - '0' as int) as nat
  }

  /** `int(s)` on a non-empty string of decimal digits. */
  function ParseNat(s: string): nat
    requires |s| > 0 && forall k :: 0 <= k < |s| ==> '0' <= s[k] <= '9'
  {
    if |s| == 1 then DigitValue(s[0]) else 10 * ParseNat(s[..|s| - 1]) + DigitValue(s[|s| - 1])
  }

  /** Decimal rendering is faithful: the number can be read back from it. */
  lemma {:induction false} NatToStringRoundTrip(n: nat)
    ensures ParseNat(NatToString(n)) == n
  {
    if n >= 10 {
      var r := NatToString(n);
      assert r[..|r| - 1] == NatToString(n / 10);
      NatToStringRoundTrip(n / 10);
    }
  }

  /** Different counts print differently. */
  lemma NatToStringInjective(m: nat, n: nat)
    ensures NatToString(m) == NatToString(n) ==> m == n
  {
    NatToStringRoundTrip(m);
    NatToStringRoundTrip(n);
  }

  predicate NoDup<T(==)>(xs: seq<T>)
  {
    forall i, j :: 0 <= i < j < |xs| ==> xs[i] != xs[j]
  }

  /** A subset is no larger. */
  lemma SubsetCard<T>(a: set<T>, b: set<T>)
    requires a <= b
    ensures |a| <= |b|
  {
    assert b == a + (b - a);
  }

  /** No element of `a` appears in `b`. */
  predicate Disjoint<T(==)>(a: seq<T>, b: seq<T>)
  {
    forall i, j :: 0 <= i < |a| && 0 <= j < |b| ==> a[i] != b[j]
  }

  /** Two duplicate-free sequences with nothing in common join into one. */
  lemma NoDupConcat<T>(a: seq<T>, b: seq<T>)
    requires NoDup(a) && NoDup(b) && Disjoint(a, b)
    ensures NoDup(a + b)
  {
    forall i, j | 0 <= i < j < |a + b|
      ensures (a + b)[i] != (a + b)[j]
    {
      if j < |a| {
        assert (a + b)[i] == a[i] && (a + b)[j] == a[j];
      } else if i < |a| {
        assert (a + b)[i] == a[i] && (a + b)[j] == b[j - |a|];
      } else {
        assert (a + b)[i] == b[i - |a|] && (a + b)[j] == b[j - |a|];
      }
    }
  }

  /** Two lists that share nothing with a third join into one that shares nothing with it. */
  lemma DisjointConcat<T>(a: seq<T>, b: seq<T>, c: seq<T>)
    requires Disjoint(a, c) && Disjoint(b, c)
    ensures Disjoint(a + b, c)
  {
    forall i, j | 0 <= i < |a + b| && 0 <= j < |c|
      ensures (a + b)[i] != c[j]
    {
      if i >= |a| {
        assert (a + b)[i] == b[i - |a|];
      }
    }
  }

  function Elems<T>(xs: seq<T>): set<T>
  {
    set x | x in xs
  }

  /** A duplicate-free sequence has as many distinct elements as entries. */
  lemma {:induction false} NoDupCard<T>(xs: seq<T>)
    requires NoDup(xs)
    ensures |Elems(xs)| == |xs|
  {
    if |xs| > 0 {
      var t := xs[..|xs| - 1];
      assert Elems(xs) == Elems(t) + {xs[|xs| - 1]};
      assert xs[|xs| - 1] !in Elems(t);
      NoDupCard(t);
    }
  }
}
