/** The fixed URL regexes the scrapers use to pull ids out of hrefs, written as
    matchers: `squads/(\w{8})/`, `matches/(\w{8})/`, `players/(\w{8})/`,
    `comps/(\d+)/` and `country/([A-Z]{3})/`. `re.findall(p, url)[0]` is the group of
    the leftmost match, which is what `FirstMatch` returns. */
module Patterns {
  import opened Wrappers
  import opened Text

  /** `\w` (ASCII letters, digits, underscore), `\d`, `[A-Z]` and `\s` */
  datatype CharClass = Word | Digit | Upper | Space

  predicate InClass(cls: CharClass, c: char) {
    match cls
    case Word => IsWordChar(c)
    case Digit => IsDigit(c)
    case Upper => IsUpper(c)
    case Space => IsSpace(c)
  }

  predicate AllIn(cls: CharClass, s: string) {
    forall k :: 0 <= k < |s| ==> InClass(cls, s[k])
  }

  /** `prefix(cls{n})/` when `width` is `Some(n)`, `prefix(cls+)/` when it is `None`. */
  datatype UrlPattern = UrlPattern(prefix: string, cls: CharClass, width: Option<nat>)

  const SquadId := UrlPattern("squads/", Word, Some(8))
  const MatchId := UrlPattern("matches/", Word, Some(8))
  const PlayerId := UrlPattern("players/", Word, Some(8))
  const CompId := UrlPattern("comps/", Digit, None)
  const CountryCode := UrlPattern("country/", Upper, Some(3))

  /** Number of consecutive `cls` characters of `s` from position `i`. */
  function RunLength(cls: CharClass, s: string, i: nat): (n: nat)
    requires i <= |s|
    ensures i + n <= |s|
    ensures AllIn(cls, s[i..i + n])
    ensures i + n == |s| || !InClass(cls, s[i + n])
    decreases |s| - i
  {
    if i == |s| || !InClass(cls, s[i]) then 0 else 1 + RunLength(cls, s, i + 1)
  }

  /** A group is what the pattern can capture: non-empty, in the class, of the fixed
      width when there is one. */
  predicate IsGroup(p: UrlPattern, g: string) {
    |g| > 0 && AllIn(p.cls, g) && (p.width.Some? ==> |g| == p.width.value)
  }

  /** The captured group when a match of `p` starts at position `i` of `s`. Since the
      class never contains '/', a `+` group must be the whole run of class characters. */
  function MatchAt(p: UrlPattern, s: string, i: nat): (r: Option<string>)
    requires i <= |s|
    ensures r.Some? ==> IsGroup(p, r.value)
    ensures r.Some? ==> StartsWith(s[i..], p.prefix + r.value + "/")
  {
    var a := i + |p.prefix|;
    if a > |s| || s[i..a] != p.prefix then None
    else
      var n := match p.width case Some(w) => w case None => RunLength(p.cls, s, a);
      if n > 0 && a + n < |s| && AllIn(p.cls, s[a..a + n]) && s[a + n] == '/' then
        assert s[i..][..|p.prefix + s[a..a + n] + "/"|] == p.prefix + s[a..a + n] + "/";
        Some(s[a..a + n])
      else None
  }

  /** The leftmost match at or after position `i`. */
  function FirstMatchFrom(p: UrlPattern, s: string, i: nat): (r: Option<string>)
    requires i <= |s|
    ensures r.Some? ==> IsGroup(p, r.value)
    decreases |s| - i
  {
    if MatchAt(p, s, i).Some? then MatchAt(p, s, i)
    else if i == |s| then None
    else FirstMatchFrom(p, s, i + 1)
  }

  /** `re.findall(p, s)[0]` when there is a match, `None` otherwise. */
  function FirstMatch(p: UrlPattern, s: string): (r: Option<string>)
    ensures r.Some? ==> IsGroup(p, r.value)
  {
    FirstMatchFrom(p, s, 0)
  }

  /** The result is the group of the leftmost position where the pattern matches. */
  lemma FirstMatchFromIsLeftmost(p: UrlPattern, s: string, i: nat)
    requires i <= |s|
    ensures FirstMatchFrom(p, s, i).Some? <==> exists j :: i <= j <= |s| && MatchAt(p, s, j).Some?
    ensures FirstMatchFrom(p, s, i).Some? ==>
      exists j :: i <= j <= |s| && MatchAt(p, s, j) == FirstMatchFrom(p, s, i)
        && forall k :: i <= k < j ==> MatchAt(p, s, k).None?
  {
    FirstMatchFromNone(p, s, i);
    FirstMatchFromFound(p, s, i);
  }

  /** No match from `i` on: the pattern matches at no position from `i` on. */
  lemma {:induction false} FirstMatchFromNone(p: UrlPattern, s: string, i: nat)
    requires i <= |s|
    ensures FirstMatchFrom(p, s, i).None? ==> forall j :: i <= j <= |s| ==> MatchAt(p, s, j).None?
    decreases |s| - i
  {
    if MatchAt(p, s, i).None? && i < |s| {
      FirstMatchFromNone(p, s, i + 1);
    }
  }

  /** A match from `i` on: it is the match at a position before which nothing matches. */
  lemma {:induction false} FirstMatchFromFound(p: UrlPattern, s: string, i: nat)
    requires i <= |s|
    ensures FirstMatchFrom(p, s, i).Some? ==>
      exists j :: i <= j <= |s| && MatchAt(p, s, j) == FirstMatchFrom(p, s, i)
        && forall k :: i <= k < j ==> MatchAt(p, s, k).None?
    decreases |s| - i
  {
    if MatchAt(p, s, i).Some? {
      assert MatchAt(p, s, i) == FirstMatchFrom(p, s, i);
    } else if i < |s| {
      FirstMatchFromFound(p, s, i + 1);
      if FirstMatchFrom(p, s, i).Some? {
        var j :| i + 1 <= j <= |s| && MatchAt(p, s, j) == FirstMatchFrom(p, s, i + 1)
          && forall k :: i + 1 <= k < j ==> MatchAt(p, s, k).None?;
        assert forall k :: i <= k < j ==> MatchAt(p, s, k).None?;
      }
    }
  }

  /** A URL that starts with the pattern's prefix, a valid id and '/' yields that id. */
  lemma FirstMatchOfId(p: UrlPattern, id: string, rest: string)
    requires IsGroup(p, id)
    ensures FirstMatch(p, p.prefix + id + "/" + rest) == Some(id)
  {
    var s := p.prefix + id + "/" + rest;
    var a := |p.prefix|;
    assert s[0..a] == p.prefix;
    assert s[a..a + |id|] == id;
    assert s[a + |id|] == '/';
    if p.width.None? {
      RunOfId(p.cls, s, a, |id|);
    }
  }

  lemma RunOfId(cls: CharClass, s: string, a: nat, n: nat)
    requires a + n < |s| && AllIn(cls, s[a..a + n]) && !InClass(cls, s[a + n])
    ensures RunLength(cls, s, a) == n
    decreases n
  {
    if n > 0 {
      assert InClass(cls, s[a..a + n][0]);
      assert s[a + 1..a + n] == s[a..a + n][1..];
      RunOfId(cls, s, a + 1, n - 1);
    }
  }

  /** A pattern used by `parse_pattern_from_url`: the first match's group, if any. */
  type Matcher = string -> Option<string>

  function UrlMatcher(p: UrlPattern): Matcher {
    s => FirstMatch(p, s)
  }

  /** The first matcher in `patterns[i..]` that matches `url`, and its group. */
  function FirstHit(patterns: seq<Matcher>, url: string, i: nat := 0): Option<string>
    requires i <= |patterns|
    decreases |patterns| - i
  {
    if i == |patterns| then None
    else if patterns[i](url).Some? then patterns[i](url)
    else FirstHit(patterns, url, i + 1)
  }

  /** The result is the group of the first pattern that matches at all. */
  lemma {:induction false} FirstHitIsFirst(patterns: seq<Matcher>, url: string, i: nat)
    requires i <= |patterns|
    ensures FirstHit(patterns, url, i).Some? <==> exists j :: i <= j < |patterns| && patterns[j](url).Some?
    ensures FirstHit(patterns, url, i).Some? ==>
      exists j :: i <= j < |patterns| && patterns[j](url) == FirstHit(patterns, url, i)
        && forall k :: i <= k < j ==> patterns[k](url).None?
    decreases |patterns| - i
  {
    if i < |patterns| && patterns[i](url).None? {
      FirstHitIsFirst(patterns, url, i + 1);
      if FirstHit(patterns, url, i).Some? {
        var j :| i + 1 <= j < |patterns| && patterns[j](url) == FirstHit(patterns, url, i + 1)
          && forall k :: i + 1 <= k < j ==> patterns[k](url).None?;
        assert forall k :: i <= k < j ==> patterns[k](url).None?;
      }
    }
  }

  /** `parse_pattern_from_url`: the group of the first pattern that matches. With no
      patterns at all, the final `len(match)` reads a name no iteration bound, so the
      call raises UnboundLocalError. */
  function ParsePatternFromUrl(patterns: seq<Matcher>, url: string): (r: Result<Option<string>>)
    ensures |patterns| == 0 <==> r == Err(UnboundLocalError)
    ensures |patterns| > 0 ==> r == Ok(FirstHit(patterns, url))
  {
    if |patterns| == 0 then Err(UnboundLocalError) else Ok(FirstHit(patterns, url))
  }

  /** With a single pattern, the result is that pattern's match. */
  lemma ParseOnePattern(m: Matcher, url: string)
    ensures ParsePatternFromUrl([m], url) == Ok(m(url))
  {
    assert FirstHit([m], url, 1) == None;
  }
}
