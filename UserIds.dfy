/**
 * The parser of the monitored-user list (`TARGET_USER_IDS`): a raw config
 * string whose commas count as whitespace, split into tokens, each token
 * converted with Python's `int()`; tokens that do not convert are skipped.
 *
 * Whitespace is Python's `str.split()` whitespace restricted to the ASCII
 * range, and a token converts when it is an optional ASCII sign followed by
 * one or more ASCII digits.
 */
module UserIds {
  import opened Wrappers

  // ---------------------------------------------------------------------
  // Characters
  // ---------------------------------------------------------------------

  /** ASCII characters that `str.split()` treats as whitespace. */
  predicate IsSpace(c: char) {
    var n := c as int;
    (9 <= n <= 13) || (28 <= n <= 32)
  }

  /** A character that separates tokens once commas become spaces. */
  predicate IsSeparator(c: char) {
    c == ',' || IsSpace(c)
  }

  predicate IsDigit(c: char) {
    '0' <= c <= '9'
  }

  predicate IsSign(c: char) {
    c == '+' || c == '-'
  }

  predicate AllDigits(s: string) {
    forall i :: 0 <= i < |s| ==> IsDigit(s[i])
  }

  /** A token: a non-empty run of non-whitespace characters. */
  predicate IsWord(t: string) {
    t != [] && forall i :: 0 <= i < |t| ==> !IsSpace(t[i])
  }

  /** Two strings that agree everywhere except, possibly, in which separator stands at a position. */
  predicate SeparatorEquivalent(s: string, t: string) {
    |s| == |t| &&
    forall i :: 0 <= i < |s| ==> s[i] == t[i] || (IsSeparator(s[i]) && IsSeparator(t[i]))
  }

  // ---------------------------------------------------------------------
  // raw.replace(",", " ").split()
  // ---------------------------------------------------------------------

  /** `s.replace(",", " ")`. */
  function ReplaceCommas(s: string): (r: string)
    ensures |r| == |s|
    ensures forall i :: 0 <= i < |s| ==> r[i] == (if s[i] == ',' then ' ' else s[i])
  {
    if s == [] then [] else [if s[0] == ',' then ' ' else s[0]] + ReplaceCommas(s[1..])
  }

  /** Length of the token that starts `s` (zero when `s` starts with whitespace). */
  function WordLen(s: string): (n: nat)
    ensures n <= |s|
    ensures forall i :: 0 <= i < n ==> !IsSpace(s[i])
    ensures n < |s| ==> IsSpace(s[n])
  {
    if s == [] || IsSpace(s[0]) then 0 else 1 + WordLen(s[1..])
  }

  /** `s.split()`: the maximal runs of non-whitespace characters, in order. */
  function Words(s: string): (w: seq<string>)
    ensures forall k :: 0 <= k < |w| ==> IsWord(w[k])
    decreases |s|
  {
    if s == [] then []
    else if IsSpace(s[0]) then Words(s[1..])
    else
      var n := WordLen(s);
      [s[..n]] + Words(s[n..])
  }

  // ---------------------------------------------------------------------
  // int(part)
  // ---------------------------------------------------------------------

  /** The value of a string of decimal digits, most significant first. */
  function DigitsValue(ds: string): nat
    requires AllDigits(ds)
    decreases |ds|
  {
    if ds == [] then 0
    else DigitsValue(ds[..|ds| - 1]) * 10 + (ds[|ds| - 1] as int - '0' as int)
  }

  /** CPython's default limit on the digits `int()` converts from a string
      (`sys.int_info.default_max_str_digits`); a longer digit string raises `ValueError`. */
  const MaxStrDigits: nat := 4300

  /** `int(t)`, with `None` standing for the `ValueError` it raises. */
  function ParseInt(t: string): (r: Option<int>)
    ensures r.Some? ==> IsWord(t) && forall i :: 0 <= i < |t| ==> !IsSeparator(t[i])
  {
    if t != [] && IsSign(t[0]) then
      if |t| > 1 && AllDigits(t[1..]) && |t| - 1 <= MaxStrDigits then
        var v: int := DigitsValue(t[1..]);
        Some(if t[0] == '-' then -v else v)
      else None
    else if t != [] && AllDigits(t) && |t| <= MaxStrDigits then Some(DigitsValue(t))
    else None
  }

  // ---------------------------------------------------------------------
  // _parse_target_user_ids
  // ---------------------------------------------------------------------

  /** What one token adds to the set: its value, or nothing when `int()` rejects it. */
  function TokenValue(t: string): set<int> {
    match ParseInt(t)
    case Some(v) => {v}
    case None => {}
  }

  /** The ids contributed by a sequence of tokens, accumulated left to right. */
  function Values(parts: seq<string>): set<int>
    decreases |parts|
  {
    if parts == [] then {} else Values(parts[..|parts| - 1]) + TokenValue(parts[|parts| - 1])
  }

  /** The set `_parse_target_user_ids(raw)` returns. */
  function TargetUserIds(raw: string): set<int> {
    if raw == [] then {} else Values(Words(ReplaceCommas(raw)))
  }

  /** `_parse_target_user_ids`: the loop that accumulates into `ids`. */
  method ParseTargetUserIds(raw: string) returns (ids: set<int>)
    ensures ids == TargetUserIds(raw)
    ensures forall v :: v in ids <==> exists t :: t in Words(ReplaceCommas(raw)) && ParseInt(t) == Some(v)
  {
    ids := {};
    if raw == [] {
      return;
    }
    var parts := Words(ReplaceCommas(raw));
    for i := 0 to |parts|
      invariant ids == Values(parts[..i])
    {
      assert parts[..i + 1] == parts[..i] + [parts[i]];
      assert parts[..i + 1][..i] == parts[..i];
      match ParseInt(parts[i]) {
        case Some(v) => ids := ids + {v};
        case None =>
      }
    }
    assert parts[..|parts|] == parts;
    ValuesMembers(parts);
  }

  // ---------------------------------------------------------------------
  // Decimal formatting: the partner of ParseInt
  // ---------------------------------------------------------------------

  function DigitChar(d: nat): (c: char)
    requires d < 10
    ensures IsDigit(c) && c as int - '0' as int == d
  {
    (48 + d) as char
  }

  /** `str(n)` for a natural number. */
  function ShowNat(n: nat): (s: string)
    ensures s != [] && AllDigits(s) && DigitsValue(s) == n
  {
    if n < 10 then [DigitChar(n)]
    else
      var s := ShowNat(n / 10) + [DigitChar(n % 10)];
      assert s[..|s| - 1] == ShowNat(n / 10);
      s
  }

  /** `str(v)` for an integer. */
  function Show(v: int): string {
    if v < 0 then "-" + ShowNat(-v) else ShowNat(v)
  }

  /** The ids written in decimal and joined by one separator character. */
  function JoinIds(ids: seq<int>, sep: char): string
    decreases |ids|
  {
    if ids == [] then []
    else if |ids| == 1 then Show(ids[0])
    else Show(ids[0]) + [sep] + JoinIds(ids[1..], sep)
  }

  // ---------------------------------------------------------------------
  // Lemmas: splitting
  // ---------------------------------------------------------------------

  /** The three facts WordLen promises determine it. */
  lemma WordLenUnique(s: string, m: nat)
    requires m <= |s|
    requires forall i :: 0 <= i < m ==> !IsSpace(s[i])
    requires m < |s| ==> IsSpace(s[m])
    ensures WordLen(s) == m
  {
  }

  /** A single whitespace character splits the token sequence in two. */
  lemma {:induction false} WordsSplit(x: string, c: char, y: string)
    requires IsSpace(c)
    ensures Words(x + [c] + y) == Words(x) + Words(y)
    decreases |x|
  {
    var s := x + [c] + y;
    if x == [] {
      assert s[1..] == y;
    } else if IsSpace(x[0]) {
      assert s[1..] == x[1..] + [c] + y;
      WordsSplit(x[1..], c, y);
    } else {
      var m := WordLen(x);
      assert forall i :: 0 <= i < m ==> s[i] == x[i];
      assert m < |s| && IsSpace(s[m]);
      WordLenUnique(s, m);
      assert s[..m] == x[..m];
      assert s[m..] == x[m..] + [c] + y;
      WordsSplit(x[m..], c, y);
    }
  }

  /** A token on its own splits to itself. */
  lemma WordsOfWord(t: string)
    requires IsWord(t)
    ensures Words(t) == [t]
  {
    WordLenUnique(t, |t|);
    assert t[..|t|] == t;
    assert t[|t|..] == [];
  }

  /** Which whitespace character stands at a position does not matter to `split()`. */
  lemma {:induction false} WordsSpaceEquivalent(s: string, t: string)
    requires |s| == |t|
    requires forall i :: 0 <= i < |s| ==> s[i] == t[i] || (IsSpace(s[i]) && IsSpace(t[i]))
    ensures Words(s) == Words(t)
    decreases |s|
  {
    if s == [] {
    } else if IsSpace(s[0]) {
      assert IsSpace(t[0]);
      WordsSpaceEquivalent(s[1..], t[1..]);
    } else {
      assert t[0] == s[0];
      var m := WordLen(s);
      assert forall i :: 0 <= i < m ==> t[i] == s[i];
      WordLenUnique(t, m);
      assert t[..m] == s[..m];
      WordsSpaceEquivalent(s[m..], t[m..]);
    }
  }

  // ---------------------------------------------------------------------
  // Lemmas: the parser
  // ---------------------------------------------------------------------

  lemma ReplaceCommasAppend(a: string, b: string)
    ensures ReplaceCommas(a + b) == ReplaceCommas(a) + ReplaceCommas(b)
  {
    var l, r := ReplaceCommas(a + b), ReplaceCommas(a) + ReplaceCommas(b);
    forall i | 0 <= i < |l| ensures l[i] == r[i] {
      if i < |a| {
        assert (a + b)[i] == a[i];
      } else {
        assert (a + b)[i] == b[i - |a|];
      }
    }
  }

  lemma {:induction false} ValuesAppend(p: seq<string>, q: seq<string>)
    ensures Values(p + q) == Values(p) + Values(q)
    decreases |q|
  {
    if q == [] {
      assert p + q == p;
    } else {
      var q' := q[..|q| - 1];
      assert (p + q)[..|p + q| - 1] == p + q';
      assert (p + q)[|p + q| - 1] == q[|q| - 1];
      ValuesAppend(p, q');
    }
  }

  /** Membership in the accumulated set: exactly the values of the tokens that convert. */
  lemma {:induction false} ValuesMembers(parts: seq<string>)
    ensures forall v :: v in Values(parts) <==> exists t :: t in parts && ParseInt(t) == Some(v)
    decreases |parts|
  {
    if parts != [] {
      var init := parts[..|parts| - 1];
      var last := parts[|parts| - 1];
      ValuesMembers(init);
      assert parts == init + [last];
      forall v | exists t :: t in parts && ParseInt(t) == Some(v)
        ensures v in Values(parts)
      {
        var t :| t in parts && ParseInt(t) == Some(v);
        if t != last {
          assert t in init;
        }
      }
    }
  }

  /** An id is in the result exactly when some token of `raw.replace(",", " ").split()` converts to it. */
  lemma TargetUserIdsMembers(raw: string, v: int)
    ensures v in TargetUserIds(raw) <==> exists t :: t in Words(ReplaceCommas(raw)) && ParseInt(t) == Some(v)
  {
    ValuesMembers(Words(ReplaceCommas(raw)));
  }

  /** The empty-string shortcut of bot.py:15-16 agrees with the general path. */
  lemma TargetUserIdsNoShortcut(raw: string)
    ensures TargetUserIds(raw) == Values(Words(ReplaceCommas(raw)))
  {
  }

  lemma EmptyInput()
    ensures TargetUserIds("") == {}
  {
  }

  /** A separator splits the config string: each side contributes its own ids. */
  lemma SplitAtSeparator(a: string, c: char, b: string)
    requires IsSeparator(c)
    ensures TargetUserIds(a + [c] + b) == TargetUserIds(a) + TargetUserIds(b)
  {
    var c' := if c == ',' then ' ' else c;
    ReplaceCommasAppend(a + [c], b);
    ReplaceCommasAppend(a, [c]);
    assert ReplaceCommas([c]) == [c'];
    WordsSplit(ReplaceCommas(a), c', ReplaceCommas(b));
    ValuesAppend(Words(ReplaceCommas(a)), Words(ReplaceCommas(b)));
    TargetUserIdsNoShortcut(a);
    TargetUserIdsNoShortcut(b);
  }

  /** A single separator-free token contributes its value, or nothing when malformed. */
  lemma SingleToken(t: string)
    requires t != []
    requires forall i :: 0 <= i < |t| ==> !IsSeparator(t[i])
    ensures TargetUserIds(t) == TokenValue(t)
  {
    assert ReplaceCommas(t) == t;
    WordsOfWord(t);
    assert TargetUserIds(t) == Values([t]);
    assert [t][..0] == [];
    assert Values([t]) == Values([]) + TokenValue(t);
  }

  /** A well-formed integer token is kept, whatever surrounds it. */
  lemma WellFormedTokenKept(a: string, c1: char, t: string, c2: char, b: string, v: int)
    requires IsSeparator(c1) && IsSeparator(c2)
    requires ParseInt(t) == Some(v)
    ensures TargetUserIds(a + [c1] + t + [c2] + b) == TargetUserIds(a) + {v} + TargetUserIds(b)
  {
    assert a + [c1] + t + [c2] + b == a + [c1] + (t + [c2] + b);
    SplitAtSeparator(a, c1, t + [c2] + b);
    SplitAtSeparator(t, c2, b);
    SingleToken(t);
  }

  /** A malformed token is skipped and changes nothing about the other tokens. */
  lemma MalformedTokenSkipped(a: string, c1: char, t: string, c2: char, b: string)
    requires IsSeparator(c1) && IsSeparator(c2)
    requires t != [] && forall i :: 0 <= i < |t| ==> !IsSeparator(t[i])
    requires ParseInt(t) == None
    ensures TargetUserIds(a + [c1] + t + [c2] + b) == TargetUserIds(a + [c1] + b)
  {
    assert a + [c1] + t + [c2] + b == a + [c1] + (t + [c2] + b);
    SplitAtSeparator(a, c1, t + [c2] + b);
    SplitAtSeparator(t, c2, b);
    SingleToken(t);
    SplitAtSeparator(a, c1, b);
  }

  /** Commas and whitespace are interchangeable as separators. */
  lemma SeparatorsInterchangeable(s: string, t: string)
    requires SeparatorEquivalent(s, t)
    ensures TargetUserIds(s) == TargetUserIds(t)
  {
    var rs, rt := ReplaceCommas(s), ReplaceCommas(t);
    forall i | 0 <= i < |rs| ensures rs[i] == rt[i] || (IsSpace(rs[i]) && IsSpace(rt[i])) {
    }
    WordsSpaceEquivalent(rs, rt);
  }

  /** `str(v)` has few enough digits for `int()` to convert it back. */
  predicate WithinDigitLimit(v: int) {
    |ShowNat(if v < 0 then -v else v)| <= MaxStrDigits
  }

  /** `int(str(v)) == v` whenever `str(v)` is within the digit limit. */
  lemma ParseShow(v: int)
    requires WithinDigitLimit(v)
    ensures ParseInt(Show(v)) == Some(v)
  {
    if v < 0 {
      var s := Show(v);
      assert s[0] == '-' && s[1..] == ShowNat(-v);
    } else {
      assert !IsSign(ShowNat(v)[0]);
    }
  }

  /** `int()` accepts an optional sign followed by digits, leading zeros included, with the usual value. */
  lemma ParseIntAccepts(sign: string, ds: string)
    requires sign == "" || sign == "+" || sign == "-"
    requires ds != [] && AllDigits(ds) && |ds| <= MaxStrDigits
    ensures ParseInt(sign + ds) == Some(if sign == "-" then -(DigitsValue(ds) as int) else DigitsValue(ds))
  {
    if sign != "" {
      assert (sign + ds)[1..] == ds;
    } else {
      assert sign + ds == ds;
    }
  }

  /** `int()` rejects any token with a non-digit after its optional leading sign. */
  lemma ParseIntRejects(t: string, i: nat)
    requires i < |t| && !IsDigit(t[i]) && !(i == 0 && IsSign(t[0]))
    ensures ParseInt(t) == None
  {
    if IsSign(t[0]) {
      assert t[1..][i - 1] == t[i];
    }
  }

  /** `int()` rejects the empty token and a bare sign. */
  lemma ParseIntRejectsBare()
    ensures ParseInt("") == ParseInt("+") == ParseInt("-") == None
  {
  }

  /** `int()` rejects a digit string longer than the limit, signed or not. */
  lemma ParseIntRejectsLong(sign: string, ds: string)
    requires sign == "" || sign == "+" || sign == "-"
    requires AllDigits(ds) && |ds| > MaxStrDigits
    ensures ParseInt(sign + ds) == None
  {
    if sign != "" {
      assert (sign + ds)[1..] == ds;
    } else {
      assert sign + ds == ds;
    }
  }

  lemma SetOfCons(ids: seq<int>)
    requires ids != []
    ensures (set x | x in ids) == {ids[0]} + (set x | x in ids[1..])
  {
    assert ids == [ids[0]] + ids[1..];
  }

  /** Writing ids in decimal, separated by commas or by whitespace, parses back to the same set
      (for ids whose decimal form is within the digit limit). */
  lemma {:induction false} JoinIdsRoundTrip(ids: seq<int>, sep: char)
    requires IsSeparator(sep)
    requires forall k :: 0 <= k < |ids| ==> WithinDigitLimit(ids[k])
    ensures TargetUserIds(JoinIds(ids, sep)) == set x | x in ids
    decreases |ids|
  {
    if ids == [] {
    } else {
      var head := Show(ids[0]);
      ParseShow(ids[0]);
      SingleToken(head);
      assert TargetUserIds(head) == {ids[0]};
      SetOfCons(ids);
      if |ids| == 1 {
        assert ids[1..] == [];
      } else {
        var rest := JoinIds(ids[1..], sep);
        assert JoinIds(ids, sep) == head + [sep] + rest;
        SplitAtSeparator(head, sep, rest);
        JoinIdsRoundTrip(ids[1..], sep);
      }
    }
  }

  /** The example of a comma list and a space list. */
  lemma CommaAndSpaceExample()
    ensures TargetUserIds("1,2") == TargetUserIds("1 2") == {1, 2}
  {
    assert WithinDigitLimit(1) && WithinDigitLimit(2);
    assert JoinIds([1, 2], ',') == "1,2";
    assert JoinIds([1, 2], ' ') == "1 2";
    JoinIdsRoundTrip([1, 2], ',');
    JoinIdsRoundTrip([1, 2], ' ');
  }
}
