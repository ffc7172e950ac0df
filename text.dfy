/** Python `str` operations the scrapers use, on `string` = `seq<char>`: split on one
    character, join, strip, lower, replace, substring test, and the text-to-number
    conversions of `int()` and `float()`. */
module Text {
  import opened Wrappers

  /** Python's whitespace set (`str.isspace`, regex `\s` on str patterns). */
  predicate IsSpace(c: char) {
    ('\t' <= c <= '\r') || ('\U{1c}' <= c <= ' ') || c == '\U{85}' || c == '\U{a0}'
    || c == '\U{1680}' || ('\U{2000}' <= c <= '\U{200a}') || c == '\U{2028}' || c == '\U{2029}'
    || c == '\U{202f}' || c == '\U{205f}' || c == '\U{3000}'
  }

  predicate IsDigit(c: char) { '0' <= c <= '9' }
  predicate IsUpper(c: char) { 'A' <= c <= 'Z' }
  predicate IsLower(c: char) { 'a' <= c <= 'z' }
  predicate IsWordChar(c: char) { IsDigit(c) || IsUpper(c) || IsLower(c) || c == '_' }

  predicate AllDigits(s: string) { forall k :: 0 <= k < |s| ==> IsDigit(s[k]) }
  predicate IsDigits(s: string) { |s| > 0 && AllDigits(s) }

  /** `sub in s` */
  predicate Contains(s: string, sub: string) {
    exists i :: 0 <= i <= |s| - |sub| && OccursAt(s, sub, i)
  }

  predicate OccursAt(s: string, sub: string, i: int) {
    0 <= i <= |s| - |sub| && s[i..i + |sub|] == sub
  }

  predicate StartsWith(s: string, prefix: string) {
    |prefix| <= |s| && s[..|prefix|] == prefix
  }

  // ---------------------------------------------------------------- strip / lower

  function StripLeft(s: string): (r: string)
    ensures |r| <= |s| && r == s[|s| - |r|..]
    ensures r == [] || !IsSpace(r[0])
    ensures forall k :: 0 <= k < |s| - |r| ==> IsSpace(s[k])
  {
    if |s| > 0 && IsSpace(s[0]) then StripLeft(s[1..]) else s
  }

  function StripRight(s: string): (r: string)
    ensures |r| <= |s| && r == s[..|r|]
    ensures r == [] || !IsSpace(r[|r| - 1])
    ensures forall k :: |r| <= k < |s| ==> IsSpace(s[k])
  {
    if |s| > 0 && IsSpace(s[|s| - 1]) then StripRight(s[..|s| - 1]) else s
  }

  /** `s.strip()` */
  function Strip(s: string): string {
    StripRight(StripLeft(s))
  }

  /** The stripped text has no whitespace at either end. */
  lemma StripEnds(s: string)
    ensures Strip(s) == [] || (!IsSpace(Strip(s)[0]) && !IsSpace(Strip(s)[|Strip(s)| - 1]))
  {
  }

  /** Text that already has no whitespace at its ends is left alone by `strip()`. */
  lemma StripNoop(s: string)
    requires s == [] || (!IsSpace(s[0]) && !IsSpace(s[|s| - 1]))
    ensures Strip(s) == s
  {
  }

  function LowerChar(c: char): char {
    if IsUpper(c) then (c as int + 32) as char else c
  }

  /** `s.lower()` on ASCII letters */
  function Lower(s: string): (r: string)
    ensures |r| == |s|
    ensures forall k :: 0 <= k < |s| ==> r[k] == LowerChar(s[k])
  {
    seq(|s|, k requires 0 <= k < |s| => LowerChar(s[k]))
  }

  // ---------------------------------------------------------------- replace

  /** `s.replace(old, new)`: every non-overlapping occurrence, scanning left to right. */
  function ReplaceAll(s: string, pat: string, rep: string): string
    requires |pat| > 0
    decreases |s|
  {
    if |s| < |pat| then s
    else if s[..|pat|] == pat then rep + ReplaceAll(s[|pat|..], pat, rep)
    else [s[0]] + ReplaceAll(s[1..], pat, rep)
  }

  /** Every character `a` of `s` replaced by the string `b`. */
  function MapChar(s: string, a: char, b: string): string {
    if s == [] then [] else (if s[0] == a then b else [s[0]]) + MapChar(s[1..], a, b)
  }

  lemma {:induction false} ReplaceOneChar(s: string, a: char, b: string)
    ensures ReplaceAll(s, [a], b) == MapChar(s, a, b)
  {
    if s != [] {
      ReplaceOneChar(s[1..], a, b);
    }
  }

  lemma {:induction false} MapCharRemoves(s: string, a: char)
    ensures a !in MapChar(s, a, "")
    ensures |MapChar(s, a, "")| <= |s|
  {
    if s != [] {
      MapCharRemoves(s[1..], a);
    }
  }

  lemma {:induction false} MapCharKeepsOthers(s: string, a: char, b: string)
    requires a !in s
    ensures MapChar(s, a, b) == s
  {
    if s != [] {
      assert s[0] != a;
      MapCharKeepsOthers(s[1..], a, b);
    }
  }

  /** Replacing one character by another, position by position. */
  lemma {:induction false} MapCharPointwise(s: string, a: char, b: char)
    ensures |MapChar(s, a, [b])| == |s|
    ensures forall k :: 0 <= k < |s| ==> MapChar(s, a, [b])[k] == if s[k] == a then b else s[k]
  {
    if s != [] {
      MapCharPointwise(s[1..], a, b);
    }
  }

  // ---------------------------------------------------------------- split / join

  /** `s.split(c)` for a one-character separator: never empty, keeps empty fields. */
  function Split(s: string, c: char): (r: seq<string>)
    ensures |r| >= 1
    decreases |s|
  {
    if |s| == 0 then [""]
    else
      var rest := Split(s[1..], c);
      if s[0] == c then [""] + rest else [[s[0]] + rest[0]] + rest[1..]
  }

  /** `sep.join(parts)` */
  function Join(parts: seq<string>, sep: string): string {
    if |parts| == 0 then ""
    else if |parts| == 1 then parts[0]
    else parts[0] + sep + Join(parts[1..], sep)
  }

  /** Splitting on `c` and joining with `c` gives back the text. */
  lemma {:induction false} JoinSplit(s: string, c: char)
    ensures Join(Split(s, c), [c]) == s
  {
    if |s| > 0 {
      var rest := Split(s[1..], c);
      JoinSplit(s[1..], c);
      if s[0] == c {
        assert Split(s, c) == [""] + rest;
        assert ([""] + rest)[1..] == rest;
      } else {
        JoinConsHead([s[0]], rest[0], rest[1..], [c]);
        assert [rest[0]] + rest[1..] == rest;
      }
    }
  }

  lemma JoinConsHead(a: string, x: string, tail: seq<string>, sep: string)
    ensures Join([a + x] + tail, sep) == a + Join([x] + tail, sep)
  {
    if |tail| > 0 {
      assert ([a + x] + tail)[1..] == tail;
      assert ([x] + tail)[1..] == tail;
    }
  }

  /** No field of `s.split(c)` contains `c`. */
  lemma {:induction false} SplitFieldsFree(s: string, c: char)
    ensures forall k :: 0 <= k < |Split(s, c)| ==> c !in Split(s, c)[k]
  {
    if |s| > 0 {
      SplitFieldsFree(s[1..], c);
    }
  }

  /** A join contains a character only if a part or the separator does. */
  lemma {:induction false} JoinFree(parts: seq<string>, sep: string, c: char)
    requires forall k :: 0 <= k < |parts| ==> c !in parts[k]
    requires c !in sep
    ensures c !in Join(parts, sep)
  {
    if |parts| > 1 {
      JoinFree(parts[1..], sep, c);
    }
  }

  /** Text without the separator splits into itself alone. */
  lemma {:induction false} SplitWithoutSep(s: string, c: char)
    requires c !in s
    ensures Split(s, c) == [s]
  {
    if |s| > 0 {
      SplitWithoutSep(s[1..], c);
      assert [s[0]] + s[1..] == s;
    }
  }

  /** Text before the first separator is the first field. */
  lemma {:induction false} SplitAfter(a: string, rest: string, c: char)
    requires c !in a
    ensures Split(a + [c] + rest, c) == [a] + Split(rest, c)
  {
    if |a| == 0 {
      assert ([c] + rest)[1..] == rest;
    } else {
      assert (a + [c] + rest)[1..] == a[1..] + [c] + rest;
      SplitAfter(a[1..], rest, c);
      assert [a[0]] + a[1..] == a;
    }
  }

  /** The first field is the text up to the first separator. */
  lemma {:induction false} SplitFirst(s: string, c: char)
    ensures Split(s, c)[0] == s[..IndexOfAny(s, c, c)]
  {
    if |s| > 0 && s[0] != c {
      SplitFirst(s[1..], c);
    }
  }

  /** Text with the separator splits into at least two fields. */
  lemma {:induction false} SplitWithSep(s: string, c: char)
    requires c in s
    ensures |Split(s, c)| >= 2
  {
    if s[0] != c {
      assert c in s[1..];
      SplitWithSep(s[1..], c);
    }
  }

  // ---------------------------------------------------------------- numbers

  function DigitChar(d: nat): (c: char)
    requires d < 10
    ensures IsDigit(c)
  {
    ('0' as int + d) as char
  }

  function DigitsValue(s: string): nat
    requires AllDigits(s)
  {
    if |s| == 0 then 0 else DigitsValue(s[..|s| - 1]) * 10 + (s[|s| - 1] as int - '0' as int)
  }

  /** `str(n)` for a natural number */
  function NatToString(n: nat): (r: string)
    ensures IsDigits(r)
  {
    if n < 10 then [DigitChar(n)] else NatToString(n / 10) + [DigitChar(n % 10)]
  }

  lemma {:induction false} NatToStringValue(n: nat)
    ensures DigitsValue(NatToString(n)) == n
  {
    if n >= 10 {
      NatToStringValue(n / 10);
      var r := NatToString(n);
      assert r[..|r| - 1] == NatToString(n / 10);
    }
  }

  function SignedDigits(t: string): Option<int> {
    if |t| > 0 && (t[0] == '-' || t[0] == '+') then
      if IsDigits(t[1..]) then
        var v: int := DigitsValue(t[1..]);
        Some(if t[0] == '-' then -v else v)
      else None
    else if IsDigits(t) then Some(DigitsValue(t))
    else None
  }

  /** `int(s)` on text: surrounding whitespace, an optional sign, then decimal digits;
      `None` where Python raises ValueError. */
  function ParseInt(s: string): Option<int> {
    SignedDigits(Strip(s))
  }

  /** Text without a digit is not a number. */
  lemma ParseIntWithoutDigits(s: string)
    requires forall k :: 0 <= k < |s| ==> !IsDigit(s[k])
    ensures ParseInt(s) == None
  {
    var t := Strip(s);
    StripWithoutDigits(s);
    if |t| > 1 {
      assert !IsDigit(t[1..][0]);
    }
  }

  lemma StripWithoutDigits(s: string)
    requires forall k :: 0 <= k < |s| ==> !IsDigit(s[k])
    ensures forall k :: 0 <= k < |Strip(s)| ==> !IsDigit(Strip(s)[k])
  {
    var t := Strip(s);
    var l := StripLeft(s);
    assert t == l[..|t|] && l == s[|s| - |l|..];
    forall k | 0 <= k < |t| ensures !IsDigit(t[k]) {
      assert t[k] == s[|s| - |l| + k];
    }
  }

  lemma StripOfDigits(s: string)
    requires IsDigits(s)
    ensures Strip(s) == s
  {
    assert !IsSpace(s[0]) && !IsSpace(s[|s| - 1]);
  }

  /** `int(str(n)) == n` */
  lemma ParseIntOfNat(n: nat)
    ensures ParseInt(NatToString(n)) == Some(n)
  {
    var r := NatToString(n);
    StripOfDigits(r);
    NatToStringValue(n);
    assert r[0] != '-' && r[0] != '+';
  }

  function IndexOfAny(s: string, a: char, b: char): (i: nat)
    ensures i <= |s|
    ensures forall k :: 0 <= k < i ==> s[k] != a && s[k] != b
    ensures i < |s| ==> s[i] == a || s[i] == b
  {
    if |s| == 0 || s[0] == a || s[0] == b then 0 else 1 + IndexOfAny(s[1..], a, b)
  }

  /** digits, digits '.' digits, or '.' digits (at least one digit) */
  predicate IsMantissa(m: string) {
    var p := IndexOfAny(m, '.', '.');
    AllDigits(m[..p]) && (p == |m| || AllDigits(m[p + 1..])) && (p > 0 || p + 1 < |m|)
  }

  /** `float(s)` succeeds on decimal text with an optional sign and exponent. */
  predicate IsFloatText(s: string) {
    var t := Strip(s);
    var u := if |t| > 0 && (t[0] == '-' || t[0] == '+') then t[1..] else t;
    var e := IndexOfAny(u, 'e', 'E');
    IsMantissa(u[..e]) && (e == |u| || SignedDigits(u[e + 1..]).Some?)
  }

  /** Whatever `int()` accepts, `float()` accepts too. */
  lemma IntTextIsFloatText(s: string)
    requires ParseInt(s).Some?
    ensures IsFloatText(s)
  {
    var t := Strip(s);
    var u := if |t| > 0 && (t[0] == '-' || t[0] == '+') then t[1..] else t;
    assert IsDigits(u);
    assert IndexOfAny(u, 'e', 'E') == |u|;
    assert u[..|u|] == u;
    assert IndexOfAny(u, '.', '.') == |u|;
  }

  /** Splitting a join on a separator none of the parts contains gives back the parts. */
  lemma {:induction false} SplitJoin(parts: seq<string>, c: char)
    requires |parts| > 0 && forall k :: 0 <= k < |parts| ==> c !in parts[k]
    ensures Split(Join(parts, [c]), c) == parts
  {
    if |parts| == 1 {
      SplitWithoutSep(parts[0], c);
    } else {
      SplitJoin(parts[1..], c);
      SplitAfter(parts[0], Join(parts[1..], [c]), c);
      assert [parts[0]] + parts[1..] == parts;
    }
  }

  /** A join of two or more parts is the first part, the separator and the join of the
      others. */
  lemma JoinUnfold(parts: seq<string>, sep: string)
    requires |parts| >= 2
    ensures Join(parts, sep) == parts[0] + sep + Join(parts[1..], sep)
  {
  }

  /** Joining a concatenation joins the two joins with one more separator. */
  lemma {:induction false} JoinAppend(xs: seq<string>, ys: seq<string>, sep: string)
    requires |xs| > 0 && |ys| > 0
    ensures Join(xs + ys, sep) == Join(xs, sep) + sep + Join(ys, sep)
  {
    if |xs| > 1 {
      JoinAppend(xs[1..], ys, sep);
      assert (xs + ys)[1..] == xs[1..] + ys;
    } else {
      assert (xs + ys)[1..] == ys;
    }
  }

  // ---------------------------------------------------------------- ordering

  /** Python's `a <= b` on text: character codes compared left to right, a proper
      prefix first. */
  predicate LexLe(a: string, b: string)
    decreases |a|
  {
    |a| == 0 || (|b| > 0 && (a[0] < b[0] || (a[0] == b[0] && LexLe(a[1..], b[1..]))))
  }

  lemma {:induction false} LexLeTotal(a: string, b: string)
    ensures LexLe(a, b) || LexLe(b, a)
    decreases |a|
  {
    if |a| > 0 && |b| > 0 && a[0] == b[0] {
      LexLeTotal(a[1..], b[1..]);
    }
  }

  lemma {:induction false} LexLeRefl(a: string)
    ensures LexLe(a, a)
    decreases |a|
  {
    if |a| > 0 {
      LexLeRefl(a[1..]);
    }
  }

  lemma {:induction false} LexLeTrans(a: string, b: string, c: string)
    requires LexLe(a, b) && LexLe(b, c)
    ensures LexLe(a, c)
    decreases |a|
  {
    if |a| > 0 && a[0] == b[0] && b[0] == c[0] {
      LexLeTrans(a[1..], b[1..], c[1..]);
    }
  }

  /** `min(xs)` on a non-empty list of texts: the first least element. */
  function MinText(xs: seq<string>): (r: string)
    requires |xs| > 0
    ensures r in xs && forall k :: 0 <= k < |xs| ==> LexLe(r, xs[k])
  {
    if |xs| == 1 then LexLeRefl(xs[0]); xs[0]
    else
      var m := MinText(xs[..|xs| - 1]);
      var last := xs[|xs| - 1];
      LexLeTotal(m, last);
      var r := if LexLe(m, last) then m else last;
      forall k | 0 <= k < |xs| ensures LexLe(r, xs[k]) {
        if k == |xs| - 1 {
          LexLeRefl(last);
        } else if r == last {
          assert LexLe(m, xs[..|xs| - 1][k]);
          LexLeTrans(last, m, xs[k]);
        } else {
          assert LexLe(m, xs[..|xs| - 1][k]);
        }
      }
      r
  }

  /** `max(xs)` on a non-empty list of texts: the first greatest element. */
  function MaxText(xs: seq<string>): (r: string)
    requires |xs| > 0
    ensures r in xs && forall k :: 0 <= k < |xs| ==> LexLe(xs[k], r)
  {
    if |xs| == 1 then LexLeRefl(xs[0]); xs[0]
    else
      var m := MaxText(xs[..|xs| - 1]);
      var last := xs[|xs| - 1];
      LexLeTotal(m, last);
      var r := if LexLe(last, m) then m else last;
      forall k | 0 <= k < |xs| ensures LexLe(xs[k], r) {
        if k == |xs| - 1 {
          LexLeRefl(last);
        } else if r == last {
          assert LexLe(xs[..|xs| - 1][k], m);
          LexLeTrans(xs[k], m, last);
        } else {
          assert LexLe(xs[..|xs| - 1][k], m);
        }
      }
      r
  }
}
