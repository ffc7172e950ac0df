/** The matches scraper: the "Scores & Fixtures" table of a league season, or of a
    team's match logs, becomes one record per match date. A league table gives the
    home and away teams with their ids and scores; a team table gives the opponent
    and its id, the goals for and against and the league id. The URL the page was
    fetched from tells the two apart. */
module Matches {
  import opened Wrappers
  import opened Text
  import opened Lists
  import opened Dicts
  import opened Values
  import opened Patterns
  import opened FbrefScraper
  import opened StatsScraper

  /** `convert_matches_dict_dtypes`' integer columns (it has no float columns). */
  const MatchesIntKeys: seq<string> := ["home_team_score", "away_team_score", "gf", "ga", "league_id"]

  /** The columns `clean_matches` drops. */
  const MatchesDeleteKeys: seq<string> := ["day", "xg", "score", "match_report", "notes", "xga", "poss"]

  const MatchesOrder: seq<string> :=
    ["match_id", "date", "time", "round", "wk", "league_id", "home", "home_team_id", "away",
     "away_team_id", "home_team_score", "away_team_score", "home_away", "opponent",
     "opponent_id", "result", "gf", "ga", "formation", "venue", "attendance", "captain",
     "referee"]

  // ---------------------------------------------------------------- url

  const BaseUrl: string := "https://fbref.com/en/"

  /** `f"{season_id}/"`, or nothing without a season. */
  function SeasonString(seasonId: Option<string>): string {
    if seasonId.Some? then seasonId.value + "/" else ""
  }

  /** `get_matches_url`: a team's match logs (in one competition when a league id is
      also given), or a league's schedule. Ids are taken as the text they format to.
      With neither id, `url` is read unbound and the handler raises ValueError. */
  function MatchesUrl(teamId: Option<string>, leagueId: Option<string>, seasonId: Option<string>): (r: Result<string>)
    ensures r.Err? <==> teamId.None? && leagueId.None?
    ensures r.Err? ==> r.error == ValueError
    ensures r.Ok? ==> StartsWith(r.value, BaseUrl)
  {
    if teamId.Some? then Ok(BaseUrl + TeamPath(teamId.value, leagueId, seasonId))
    else if leagueId.Some? then Ok(BaseUrl + ("comps/" + leagueId.value + "/" + SeasonString(seasonId) + "schedule/"))
    else Err(ValueError)
  }

  /** The path of a team's match logs, in one competition when a league id is given. */
  function TeamPath(teamId: string, leagueId: Option<string>, seasonId: Option<string>): string {
    var tail := if leagueId.Some? then "matchlogs/c" + leagueId.value + "/schedule/" else "matchlogs/schedule/";
    "squads/" + teamId + "/" + SeasonString(seasonId) + tail
  }

  /** `"comps" in url`: how `clean_matches` tells a league table from a team table. */
  predicate IsLeagueUrl(url: string) {
    Contains(url, "comps")
  }

  /** A league URL (no team id) is read back as a league URL. */
  lemma LeagueUrlIsLeague(leagueId: string, seasonId: Option<string>)
    ensures MatchesUrl(None, Some(leagueId), seasonId).Ok?
    ensures IsLeagueUrl(MatchesUrl(None, Some(leagueId), seasonId).value)
  {
    var url := MatchesUrl(None, Some(leagueId), seasonId).value;
    assert url[21..26] == "comps";
    assert OccursAt(url, "comps", 21);
  }

  /** A team URL is read back as a team URL, provided no id contains a 'p' (team ids
      are hexadecimal, league ids and seasons are digits and dashes): the only 'p'
      left is the one in "https". */
  lemma TeamUrlIsTeam(teamId: string, leagueId: Option<string>, seasonId: Option<string>)
    requires 'p' !in teamId
    requires leagueId.Some? ==> 'p' !in leagueId.value
    requires seasonId.Some? ==> 'p' !in seasonId.value
    ensures MatchesUrl(Some(teamId), leagueId, seasonId).Ok?
    ensures !IsLeagueUrl(MatchesUrl(Some(teamId), leagueId, seasonId).value)
  {
    var x := TeamPath(teamId, leagueId, seasonId);
    TeamPathHasNoP(teamId, leagueId, seasonId);
    BaseUrlSplit(x);
    NoCompsAfterHttps("://fbref.com/en/" + x);
  }

  /** The base URL is "https" followed by the rest of it. */
  lemma BaseUrlSplit(x: string)
    ensures BaseUrl + x == "https" + ("://fbref.com/en/" + x)
  {
    assert BaseUrl == "https" + "://fbref.com/en/";
  }

  lemma TeamPathHasNoP(teamId: string, leagueId: Option<string>, seasonId: Option<string>)
    requires 'p' !in teamId
    requires leagueId.Some? ==> 'p' !in leagueId.value
    requires seasonId.Some? ==> 'p' !in seasonId.value
    ensures 'p' !in "://fbref.com/en/" + TeamPath(teamId, leagueId, seasonId)
  {
    var season := SeasonString(seasonId);
    var tail := if leagueId.Some? then "matchlogs/c" + leagueId.value + "/schedule/" else "matchlogs/schedule/";
    SeasonAndTailHaveNoP(leagueId, seasonId);
    LiteralsHaveNoP();
    NotInConcat('p', "squads/", teamId);
    NotInConcat('p', "squads/" + teamId, "/");
    NotInConcat('p', "squads/" + teamId + "/", season);
    NotInConcat('p', "squads/" + teamId + "/" + season, tail);
    NotInConcat('p', "://fbref.com/en/", TeamPath(teamId, leagueId, seasonId));
  }

  lemma LiteralsHaveNoP()
    ensures 'p' !in "squads/" && 'p' !in "/" && 'p' !in "://fbref.com/en/"
  {
    assert "squads/"[..] == ['s', 'q', 'u', 'a', 'd', 's', '/'];
  }

  lemma SeasonAndTailHaveNoP(leagueId: Option<string>, seasonId: Option<string>)
    requires leagueId.Some? ==> 'p' !in leagueId.value
    requires seasonId.Some? ==> 'p' !in seasonId.value
    ensures 'p' !in SeasonString(seasonId)
    ensures 'p' !in if leagueId.Some? then "matchlogs/c" + leagueId.value + "/schedule/" else "matchlogs/schedule/"
  {
    if seasonId.Some? {
      NotInConcat('p', seasonId.value, "/");
    }
    if leagueId.Some? {
      NotInConcat('p', "matchlogs/c", leagueId.value);
      NotInConcat('p', "matchlogs/c" + leagueId.value, "/schedule/");
    }
  }

  lemma NotInConcat(c: char, a: string, b: string)
    requires c !in a && c !in b
    ensures c !in a + b
  {
  }

  /** "comps" needs a 'p', and after "https" there is none. */
  lemma NoCompsAfterHttps(rest: string)
    requires 'p' !in rest
    ensures !Contains("https" + rest, "comps")
  {
    var url := "https" + rest;
    forall i | 0 <= i <= |url| - 5
      ensures !OccursAt(url, "comps", i)
    {
      if i + 3 >= 5 {
        assert url[i..i + 5][3] == url[i + 3] == rest[i + 3 - 5];
      } else {
        assert url[i..i + 5][0] == url[i] == "https"[i];
      }
    }
  }

  // ---------------------------------------------------------------- scores

  /** `clean_score`: the text split on '-'; two or more parts give the first two,
      otherwise neither. */
  function CleanScore(s: string): (r: (Option<string>, Option<string>))
    ensures r.0.Some? <==> '-' in s
    ensures r.0.Some? <==> r.1.Some?
    ensures r.0.Some? ==> '-' !in r.0.value && '-' !in r.1.value
  {
    var parts := Split(s, '-');
    SplitHasSep(s, '-');
    SplitFieldsFree(s, '-');
    if |parts| > 1 then (Some(parts[0]), Some(parts[1])) else (None, None)
  }

  /** Text splits into more than one field exactly when it holds the separator. */
  lemma SplitHasSep(s: string, c: char)
    ensures |Split(s, c)| > 1 <==> c in s
  {
    if c in s { SplitWithSep(s, c); } else { SplitWithoutSep(s, c); }
  }

  /** A score "h-a", possibly followed by more dash-separated text, gives back the
      home goals `h` and the away goals `a`. */
  lemma CleanScoreOfScore(h: string, a: string, rest: string)
    requires '-' !in h && '-' !in a
    requires rest == "" || rest[0] == '-'
    ensures CleanScore(h + "-" + a + rest) == (Some(h), Some(a))
  {
    assert h + "-" + a + rest == h + ['-'] + (a + rest);
    SplitAfter(h, a + rest, '-');
    if rest == "" {
      assert a + rest == a;
      SplitWithoutSep(a, '-');
    } else {
      assert a + rest == a + ['-'] + rest[1..];
      SplitAfter(a, rest[1..], '-');
    }
  }

  /** `clean_score(x)[0]` (home) or `clean_score(x)[1]` (away) for one cell: the goals
      text, or None. A cell that is not text has no `split` (AttributeError). */
  function ScorePart(x: Value, second: bool): (r: Result<Value>)
    ensures r.Ok? <==> x.Str?
    ensures r.Ok? ==> (r.value == Null <==> '-' !in x.s)
  {
    if !x.Str? then Err(AttributeError)
    else
      var score := CleanScore(x.s);
      var goals := if second then score.1 else score.0;
      Ok(if goals.Some? then Str(goals.value) else Null)
  }

  function ScoreCell(second: bool): Value -> Result<Value> {
    x => ScorePart(x, second)
  }

  /** Home goals first, away goals second, for a score "h-a". */
  lemma ScorePartOfScore(h: string, a: string)
    requires '-' !in h && '-' !in a
    ensures ScorePart(Str(h + "-" + a), false) == Ok(Str(h))
    ensures ScorePart(Str(h + "-" + a), true) == Ok(Str(a))
  {
    assert h + "-" + a + "" == h + "-" + a;
    CleanScoreOfScore(h, a, "");
  }

  // ---------------------------------------------------------------- home and away ids

  /** The squad ids of a row's non-empty links, in link order, as `m` (the squad-id
      pattern) finds them. */
  function SquadHits(hrefs: seq<string>, m: Matcher): (r: seq<string>)
    ensures |r| <= |hrefs|
  {
    if |hrefs| == 0 then []
    else
      var init := SquadHits(hrefs[..|hrefs| - 1], m);
      var href := hrefs[|hrefs| - 1];
      var ha := if href == "" then None else m(href);
      if ha.Some? then init + [ha.value] else init
  }

  /** The distinct squad ids of a row, in order of first appearance. */
  function RowTeamIds(row: Row, m: Matcher): (r: seq<string>)
    ensures Distinct(r)
  {
    Dedup(SquadHits(row.hrefs, m))
  }

  /** What one row appends to `home` and `away`: the first two ids; with one id,
      `home` takes it and then, after `away.append(home_away[1])` fails, a None as
      well, while `away` takes a None; with none, a None each. */
  function RowHomeAway(ids: seq<string>): (r: (seq<Value>, seq<Value>))
    ensures |r.1| == 1
    ensures |r.0| == if |ids| == 1 then 2 else 1
  {
    if |ids| >= 2 then ([Str(ids[0])], [Str(ids[1])])
    else if |ids| == 1 then ([Str(ids[0]), Null], [Null])
    else ([Null], [Null])
  }

  /** The number of rows with exactly one team id. */
  function OneIdRows(rows: seq<Row>, m: Matcher): nat {
    if |rows| == 0 then 0
    else OneIdRows(rows[..|rows| - 1], m) + (if |RowTeamIds(rows[|rows| - 1], m)| == 1 then 1 else 0)
  }

  /** `get_home_and_away_ids` over the rows after the first: `away` gets one entry per
      row, `home` one more for every row with a single id. */
  function HomeAndAwayIds(rows: seq<Row>, m: Matcher): (r: (seq<Value>, seq<Value>))
    ensures |r.1| == |rows|
    ensures |r.0| == |rows| + OneIdRows(rows, m)
  {
    if |rows| == 0 then ([], [])
    else
      var init := HomeAndAwayIds(rows[..|rows| - 1], m);
      var last := RowHomeAway(RowTeamIds(rows[|rows| - 1], m));
      (init.0 + last.0, init.1 + last.1)
  }

  /** When every row links two teams, the lists are aligned with the rows: row `i`'s
      home team is its first id and its away team its second, never the same. */
  lemma HomeAndAwayAligned(rows: seq<Row>, m: Matcher)
    requires forall i :: 0 <= i < |rows| ==> |RowTeamIds(rows[i], m)| >= 2
    ensures var r := HomeAndAwayIds(rows, m);
      && |r.0| == |rows|
      && forall i :: 0 <= i < |rows| ==>
           && r.0[i] == Str(RowTeamIds(rows[i], m)[0])
           && r.1[i] == Str(RowTeamIds(rows[i], m)[1])
           && r.0[i] != r.1[i]
  {
    var n := 0;
    assert rows[..0] == [];
    while n < |rows|
      invariant n <= |rows| && AlignedUpTo(rows, m, n)
    {
      AlignedStep(rows, m, n);
      n := n + 1;
    }
    assert rows[..n] == rows;
  }

  /** The lists of the first `n` rows hold each row's two ids at the row's index. */
  ghost predicate AlignedUpTo(rows: seq<Row>, m: Matcher, n: nat)
    requires n <= |rows|
  {
    var r := HomeAndAwayIds(rows[..n], m);
    && |r.0| == n && |r.1| == n
    && forall i :: 0 <= i < n ==>
         && |RowTeamIds(rows[i], m)| >= 2
         && r.0[i] == Str(RowTeamIds(rows[i], m)[0])
         && r.1[i] == Str(RowTeamIds(rows[i], m)[1])
  }

  lemma AlignedStep(rows: seq<Row>, m: Matcher, n: nat)
    requires n < |rows| && AlignedUpTo(rows, m, n) && |RowTeamIds(rows[n], m)| >= 2
    ensures AlignedUpTo(rows, m, n + 1)
  {
    var p := rows[..n + 1];
    assert p[..|p| - 1] == rows[..n] && p[|p| - 1] == rows[n];
    var ids := RowTeamIds(rows[n], m);
    var r0 := HomeAndAwayIds(rows[..n], m);
    var r := HomeAndAwayIds(p, m);
    assert r == (r0.0 + [Str(ids[0])], r0.1 + [Str(ids[1])]);
  }

  /** A row with a single team id puts `home` one entry ahead of `away`, so the
      columns no longer line up with the rows. */
  lemma {:induction false} HomeAndAwayMisaligned(rows: seq<Row>, m: Matcher, k: nat)
    requires k < |rows| && |RowTeamIds(rows[k], m)| == 1
    ensures |HomeAndAwayIds(rows, m).0| > |HomeAndAwayIds(rows, m).1|
  {
    OneIdRowsPositive(rows, m, k);
  }

  lemma {:induction false} OneIdRowsPositive(rows: seq<Row>, m: Matcher, k: nat)
    requires k < |rows| && |RowTeamIds(rows[k], m)| == 1
    ensures OneIdRows(rows, m) > 0
  {
    if k < |rows| - 1 {
      var init := rows[..|rows| - 1];
      assert init[k] == rows[k];
      OneIdRowsPositive(init, m, k);
    }
  }

  /** The inner loop over a row's links, keeping each new squad id. */
  method RowTeamIdsLoop(row: Row, m: Matcher) returns (ids: seq<string>)
    ensures ids == RowTeamIds(row, m)
  {
    ids := [];
    var j := 0;
    while j < |row.hrefs|
      invariant 0 <= j <= |row.hrefs|
      invariant ids == Dedup(SquadHits(row.hrefs[..j], m))
    {
      var href := row.hrefs[j];
      SquadHitsSnoc(row.hrefs, m, j);
      if href != "" {
        ParseOnePattern(m, href);
        var ha := ParsePatternFromUrl([m], href);
        if ha.value.Some? {
          DedupSnoc(SquadHits(row.hrefs[..j], m), ha.value.value);
          if ha.value.value !in ids {
            ids := ids + [ha.value.value];
          }
        }
      }
      j := j + 1;
    }
    assert row.hrefs[..j] == row.hrefs;
  }

  lemma SquadHitsSnoc(hrefs: seq<string>, m: Matcher, j: nat)
    requires j < |hrefs|
    ensures SquadHits(hrefs[..j + 1], m) ==
      if hrefs[j] != "" && m(hrefs[j]).Some? then SquadHits(hrefs[..j], m) + [m(hrefs[j]).value]
      else SquadHits(hrefs[..j], m)
  {
    assert hrefs[..j + 1][..j] == hrefs[..j];
  }

  /** `get_home_and_away_ids`: the loop over the rows after the first. */
  lemma HomeAndAwayIdsSnoc(rows: seq<Row>, m: Matcher, i: nat)
    requires i < |rows|
    ensures var r := HomeAndAwayIds(rows[..i], m);
      var last := RowHomeAway(RowTeamIds(rows[i], m));
      HomeAndAwayIds(rows[..i + 1], m) == (r.0 + last.0, r.1 + last.1)
  {
    assert rows[..i + 1][..i] == rows[..i];
  }

  method HomeAndAwayIdsLoop(t: Table, m: Matcher) returns (home: seq<Value>, away: seq<Value>)
    ensures (home, away) == HomeAndAwayIds(SliceFrom(ParseTableRows(t), 1), m)
  {
    var rows := SliceFrom(ParseTableRows(t), 1);
    home, away := [], [];
    for i := 0 to |rows|
      invariant home == HomeAndAwayIds(rows[..i], m).0
      invariant away == HomeAndAwayIds(rows[..i], m).1
    {
      var ids := RowTeamIdsLoop(rows[i], m);
      HomeAndAwayIdsSnoc(rows, m, i);
      home, away := AppendRowIds(home, away, ids);
    }
    assert rows[..|rows|] == rows;
  }

  /** The appends for one row: its first id or None to the home list, then its
      second id or None to the away list; with a single id, None goes to both. */
  method AppendRowIds(home: seq<Value>, away: seq<Value>, ids: seq<string>)
    returns (home': seq<Value>, away': seq<Value>)
    ensures home' == home + RowHomeAway(ids).0 && away' == away + RowHomeAway(ids).1
  {
    if |ids| == 0 {
      home' := home + [Null];
      away' := away + [Null];
    } else {
      home' := home + [Str(ids[0])];
      if |ids| >= 2 {
        away' := away + [Str(ids[1])];
      } else {
        home' := home' + [Null];
        away' := away + [Null];
      }
    }
  }

  // ---------------------------------------------------------------- league table

  lemma LeagueNamesDiffer()
    ensures "score" != "match_id" && "score" != "home_team_id" && "score" != "away_team_id"
    ensures "score" != "home_team_score" && "score" != "away_team_score"
    ensures "home_team_score" != "away_team_score"
    ensures "match_id" != "home_team_id" && "match_id" != "away_team_id"
    ensures "match_id" != "home_team_score" && "match_id" != "away_team_score"
    ensures "home_team_id" != "away_team_id"
    ensures "home_team_id" != "home_team_score" && "home_team_id" != "away_team_score"
    ensures "away_team_id" != "home_team_score" && "away_team_id" != "away_team_score"
  {
  }

  /** The id columns `clean_league_matches_table` sets after parsing: the match ids
      from the links and the home and away ids. */
  function LeagueIdColumns(d0: Dict<Value>, matchIds: seq<string>, home: seq<Value>, away: seq<Value>)
    : (r: Dict<Value>)
    ensures Get(r, "score") == Get(d0, "score")
    ensures Get(r, "match_id") == Some(List(Strs(matchIds)))
    ensures Get(r, "home_team_id") == Some(List(home))
    ensures Get(r, "away_team_id") == Some(List(away))
  {
    LeagueNamesDiffer();
    var d1 := SetItem(d0, "match_id", List(Strs(matchIds)));
    var d2 := SetItem(d1, "home_team_id", List(home));
    GetSetItem(d0, "match_id", List(Strs(matchIds)), "score");
    GetSetItem(d1, "home_team_id", List(home), "score");
    GetSetItem(d2, "away_team_id", List(away), "score");
    GetSetItem(d0, "match_id", List(Strs(matchIds)), "match_id");
    GetSetItem(d1, "home_team_id", List(home), "match_id");
    GetSetItem(d2, "away_team_id", List(away), "match_id");
    GetSetItem(d1, "home_team_id", List(home), "home_team_id");
    GetSetItem(d2, "away_team_id", List(away), "home_team_id");
    GetSetItem(d2, "away_team_id", List(away), "away_team_id");
    SetItem(d2, "away_team_id", List(away))
  }

  /** The two score columns, both read from 'score': the home one from its first
      part, the away one from its first part as written (`second` false) or its
      second as intended. Every other column is left alone. */
  function LeagueScoreColumns(d: Dict<Value>, second: bool): (r: Result<Dict<Value>>)
    ensures r.Ok? ==> (Has(d, "score")
      && MapOver(Get(d, "score").value, ScoreCell(false)).Ok?
      && MapOver(Get(d, "score").value, ScoreCell(second)).Ok?
      && Get(r.value, "home_team_score") == Some(MapOver(Get(d, "score").value, ScoreCell(false)).value)
      && Get(r.value, "away_team_score") == Some(MapOver(Get(d, "score").value, ScoreCell(second)).value))
    ensures r.Ok? ==> forall k :: k != "home_team_score" && k != "away_team_score" ==> Get(r.value, k) == Get(d, k)
  {
    LeagueNamesDiffer();
    var score :- Lookup(d, "score");
    var homeScores :- MapOver(score, ScoreCell(false));
    var d4 := SetItem(d, "home_team_score", homeScores);
    GetSetItem(d, "home_team_score", homeScores, "score");
    var score' := Lookup(d4, "score").value;
    var awayScores :- MapOver(score', ScoreCell(second));
    var r := SetItem(d4, "away_team_score", awayScores);
    GetSetItem(d4, "away_team_score", awayScores, "home_team_score");
    GetSetItem(d4, "away_team_score", awayScores, "away_team_score");
    GetSetItem(d, "home_team_score", homeScores, "home_team_score");
    assert forall k :: k != "home_team_score" && k != "away_team_score" ==> Get(r, k) == Get(d, k) by {
      forall k | k != "home_team_score" && k != "away_team_score" ensures Get(r, k) == Get(d, k) {
        GetSetItem(d4, "away_team_score", awayScores, k);
        GetSetItem(d, "home_team_score", homeScores, k);
      }
    }
    Ok(r)
  }

  /** `clean_league_matches_table` after parsing, given the parsed columns, the match
      ids and the home and away ids; `second` says which part of the score the away
      column takes: the first as written, the second as intended. */
  function LeagueColumns(d0: Dict<Value>, matchIds: seq<string>, home: seq<Value>, away: seq<Value>, second: bool)
    : Result<Dict<Value>>
  {
    LeagueScoreColumns(LeagueIdColumns(d0, matchIds, home, away), second)
  }

  /** The league columns: the ids as given, and both score columns read from the
      table's 'score' column, the home one from its first part. */
  lemma LeagueColumnsShape(d0: Dict<Value>, matchIds: seq<string>, home: seq<Value>, away: seq<Value>, second: bool)
    requires LeagueColumns(d0, matchIds, home, away, second).Ok?
    ensures Has(d0, "score")
      && MapOver(Get(d0, "score").value, ScoreCell(false)).Ok?
      && MapOver(Get(d0, "score").value, ScoreCell(second)).Ok?
      && var r := LeagueColumns(d0, matchIds, home, away, second).value;
         var score := Get(d0, "score").value;
         && Get(r, "home_team_score") == Some(MapOver(score, ScoreCell(false)).value)
         && Get(r, "away_team_score") == Some(MapOver(score, ScoreCell(second)).value)
         && Get(r, "match_id") == Some(List(Strs(matchIds)))
         && Get(r, "home_team_id") == Some(List(home))
         && Get(r, "away_team_id") == Some(List(away))
  {
    LeagueNamesDiffer();
  }

  /** As written, both score columns take the first part of the score, so the away
      score always equals the home score. */
  lemma LeagueScoresAsWritten(d0: Dict<Value>, matchIds: seq<string>, home: seq<Value>, away: seq<Value>)
    requires LeagueColumns(d0, matchIds, home, away, false).Ok?
    ensures var r := LeagueColumns(d0, matchIds, home, away, false).value;
      Get(r, "home_team_score") == Get(r, "away_team_score")
  {
    LeagueColumnsShape(d0, matchIds, home, away, false);
  }

  /** The score "2-1" as written: the home cell reads 2, and so does the away cell,
      whose goals were 1. */
  lemma AwayScoreAsWritten()
    ensures ScorePart(Str("2-1"), false) == Ok(Str("2"))
    ensures ScoreCell(false)(Str("2-1")) != ScorePart(Str("2-1"), true)
  {
    assert "2" + "-" + "1" == "2-1";
    ScorePartOfScore("2", "1");
  }

  /** As intended, a score "h-a" in row `i` gives home goals `h` and away goals `a`. */
  lemma LeagueScoresFixed(d0: Dict<Value>, matchIds: seq<string>, home: seq<Value>, away: seq<Value>,
                          i: nat, h: string, a: string)
    requires LeagueColumns(d0, matchIds, home, away, true).Ok?
    requires Has(d0, "score") && Get(d0, "score").value.List?
    requires i < |Get(d0, "score").value.items| && Get(d0, "score").value.items[i] == Str(h + "-" + a)
    requires '-' !in h && '-' !in a
    ensures var r := LeagueColumns(d0, matchIds, home, away, true).value;
      && Has(r, "home_team_score") && Has(r, "away_team_score")
      && Get(r, "home_team_score").value.List? && Get(r, "away_team_score").value.List?
      && i < |Get(r, "home_team_score").value.items| && i < |Get(r, "away_team_score").value.items|
      && Get(r, "home_team_score").value.items[i] == Str(h)
      && Get(r, "away_team_score").value.items[i] == Str(a)
  {
    LeagueColumnsShape(d0, matchIds, home, away, true);
    ScorePartOfScore(h, a);
    var score := Get(d0, "score").value;
    ScoreCellAt(score, false, i, Str(h));
    ScoreCellAt(score, true, i, Str(a));
  }

  /** Entry `i` of a mapped score column is the part of the `i`-th score. */
  lemma ScoreCellAt(score: Value, second: bool, i: nat, goals: Value)
    requires score.List? && i < |score.items| && MapOver(score, ScoreCell(second)).Ok?
    requires ScorePart(score.items[i], second) == Ok(goals)
    ensures i < |MapOver(score, ScoreCell(second)).value.items|
    ensures MapOver(score, ScoreCell(second)).value.items[i] == goals
  {
    assert ScoreCell(second)(score.items[i]) == Ok(MapOver(score, ScoreCell(second)).value.items[i]);
  }

  // ---------------------------------------------------------------- team table

  lemma TeamNamesDiffer()
    ensures "venue" != "match_id" && "venue" != "league_id" && "venue" != "opponent_id"
    ensures "home_away" != "gf" && "home_away" != "ga" && "venue" != "home_away"
    ensures "match_id" != "league_id" && "match_id" != "opponent_id" && "league_id" != "opponent_id"
    ensures "match_id" != "venue" && "match_id" != "home_away" && "match_id" != "gf" && "match_id" != "ga"
    ensures "league_id" != "home_away" && "league_id" != "gf" && "league_id" != "ga"
    ensures "opponent_id" != "home_away" && "opponent_id" != "gf" && "opponent_id" != "ga"
  {
  }

  /** The id columns `clean_team_matches_table` sets after parsing. */
  function TeamIdColumns(d0: Dict<Value>, matchIds: seq<string>, leagueIds: seq<string>, opponentIds: seq<string>)
    : (r: Dict<Value>)
    ensures Get(r, "venue") == Get(d0, "venue")
    ensures Get(r, "match_id") == Some(List(Strs(matchIds)))
    ensures Get(r, "league_id") == Some(List(Strs(leagueIds)))
    ensures Get(r, "opponent_id") == Some(List(Strs(opponentIds)))
  {
    TeamNamesDiffer();
    var d1 := SetItem(d0, "match_id", List(Strs(matchIds)));
    var d2 := SetItem(d1, "league_id", List(Strs(leagueIds)));
    GetSetItem(d0, "match_id", List(Strs(matchIds)), "venue");
    GetSetItem(d1, "league_id", List(Strs(leagueIds)), "venue");
    GetSetItem(d2, "opponent_id", List(Strs(opponentIds)), "venue");
    GetSetItem(d0, "match_id", List(Strs(matchIds)), "match_id");
    GetSetItem(d1, "league_id", List(Strs(leagueIds)), "match_id");
    GetSetItem(d2, "opponent_id", List(Strs(opponentIds)), "match_id");
    GetSetItem(d1, "league_id", List(Strs(leagueIds)), "league_id");
    GetSetItem(d2, "opponent_id", List(Strs(opponentIds)), "league_id");
    GetSetItem(d2, "opponent_id", List(Strs(opponentIds)), "opponent_id");
    SetItem(d2, "opponent_id", List(Strs(opponentIds)))
  }

  /** Goals for and against cleaned of penalty-shootout counts; every other column
      left alone. */
  function TeamGoalColumns(d: Dict<Value>): (r: Result<Dict<Value>>)
    ensures r.Ok? ==> forall k :: k != "gf" && k != "ga" ==> Get(r.value, k) == Get(d, k)
    ensures r.Ok? ==> Has(d, "gf") && Has(d, "ga")
  {
    var gf :- Lookup(d, "gf");
    var gfs :- CleanColumn(GoalsForAgainst, gf);
    var d5 := SetItem(d, "gf", gfs);
    GetSetItem(d, "gf", gfs, "ga");
    var ga :- Lookup(d5, "ga");
    var gas :- CleanColumn(GoalsForAgainst, ga);
    var r := SetItem(d5, "ga", gas);
    assert forall k :: k != "gf" && k != "ga" ==> Get(r, k) == Get(d, k) by {
      forall k | k != "gf" && k != "ga" ensures Get(r, k) == Get(d, k) {
        GetSetItem(d5, "ga", gas, k);
        GetSetItem(d, "gf", gfs, k);
      }
    }
    Ok(r)
  }

  /** `clean_team_matches_table` after parsing, given the parsed columns and the
      match, league and opponent ids: 'venue' renamed to 'home_away' (KeyError
      without it), then the goals cleaned. */
  function TeamColumns(d0: Dict<Value>, matchIds: seq<string>, leagueIds: seq<string>, opponentIds: seq<string>)
    : Result<Dict<Value>>
  {
    var d3 := TeamIdColumns(d0, matchIds, leagueIds, opponentIds);
    var d4 :- RenameDictKey(d3, "venue", "home_away");
    TeamGoalColumns(d4)
  }

  /** Renaming 'venue' to 'home_away' leaves the id columns alone. */
  lemma RenameVenue(d3: Dict<Value>)
    requires Has(d3, "venue")
    ensures var d4 := RenameDictKey(d3, "venue", "home_away").value;
      && Get(d4, "venue") == None && Get(d4, "home_away") == Get(d3, "venue")
      && Get(d4, "match_id") == Get(d3, "match_id") && Get(d4, "league_id") == Get(d3, "league_id")
      && Get(d4, "opponent_id") == Get(d3, "opponent_id")
  {
    TeamNamesDiffer();
    GetRenameDictKey(d3, "venue", "home_away", "venue");
    GetRenameDictKey(d3, "venue", "home_away", "home_away");
    GetRenameDictKey(d3, "venue", "home_away", "match_id");
    GetRenameDictKey(d3, "venue", "home_away", "league_id");
    GetRenameDictKey(d3, "venue", "home_away", "opponent_id");
  }

  /** The team columns: 'venue' moved to 'home_away', and the three id columns as
      found in the links. */
  lemma TeamColumnsShape(d0: Dict<Value>, matchIds: seq<string>, leagueIds: seq<string>, opponentIds: seq<string>)
    requires TeamColumns(d0, matchIds, leagueIds, opponentIds).Ok?
    ensures var r := TeamColumns(d0, matchIds, leagueIds, opponentIds).value;
      && Has(d0, "venue") && !Has(r, "venue")
      && Get(r, "home_away") == Get(d0, "venue")
      && Get(r, "match_id") == Some(List(Strs(matchIds)))
      && Get(r, "league_id") == Some(List(Strs(leagueIds)))
      && Get(r, "opponent_id") == Some(List(Strs(opponentIds)))
  {
    var d3 := TeamIdColumns(d0, matchIds, leagueIds, opponentIds);
    assert Has(d3, "venue");
    RenameVenue(d3);
    var d4 := RenameDictKey(d3, "venue", "home_away").value;
    GoalColumnsKeepIds(d4);
  }

  /** Cleaning the goal columns leaves the venue and id columns alone. */
  lemma GoalColumnsKeepIds(d4: Dict<Value>)
    requires TeamGoalColumns(d4).Ok?
    ensures var r := TeamGoalColumns(d4).value;
      && Get(r, "venue") == Get(d4, "venue") && Get(r, "home_away") == Get(d4, "home_away")
      && Get(r, "match_id") == Get(d4, "match_id") && Get(r, "league_id") == Get(d4, "league_id")
      && Get(r, "opponent_id") == Get(d4, "opponent_id")
  {
    TeamNamesDiffer();
  }

  // ---------------------------------------------------------------- padding

  /** How many Nones the loop appends to `key`: `len(date) - len(key)`, none when that
      is negative. */
  function PadCount(d: Dict<Value>, key: string): (r: Result<nat>)
    ensures r.Ok? ==> (Has(d, "date") && Has(d, key)
      && Len(Get(d, "date").value).Ok? && Len(Get(d, key).value).Ok?
      && Len(Get(d, key).value).value + r.value >= Len(Get(d, "date").value).value)
  {
    var dates :- Lookup(d, "date");
    var nd :- Len(dates);
    var col :- Lookup(d, key);
    var nk :- Len(col);
    Ok(if nd > nk then nd - nk else 0)
  }

  /** `for _ in range(no_match_ids): d[key].append(None)`: the column extended by
      Nones to the length of 'date', in place; every other column and the key order
      unchanged. Appending to a column that is not a list raises AttributeError. */
  function Padded(d: Dict<Value>, key: string): (r: Result<Dict<Value>>)
    ensures r.Ok? ==> PadCount(d, key).Ok?
    ensures r.Ok? ==> Keys(r.value) == Keys(d)
    ensures r.Ok? ==> forall k :: k != key ==> Get(r.value, k) == Get(d, k)
    ensures r.Ok? && PadCount(d, key).value > 0 ==>
      && Get(d, key).value.List?
      && Get(r.value, key) == Some(List(Get(d, key).value.items + Nulls(PadCount(d, key).value)))
      && |Get(r.value, key).value.items| == Len(Get(d, "date").value).value
    ensures PadCount(d, key).Ok? && PadCount(d, key).value > 0 && Get(d, key).value.List? ==> r.Ok?
  {
    var n :- PadCount(d, key);
    if n == 0 then Ok(d)
    else
      var col := Get(d, key).value;
      if col.List? then
        var r := SetItem(d, key, List(col.items + Nulls(n)));
        assert forall k :: Get(r, k) == if k == key then Some(List(col.items + Nulls(n))) else Get(d, k) by {
          forall k ensures Get(r, k) == if k == key then Some(List(col.items + Nulls(n))) else Get(d, k) {
            GetSetItem(d, key, List(col.items + Nulls(n)), k);
          }
        }
        Ok(r)
      else Err(AttributeError)
  }

  /** The padding loop for one column. */
  method PadColumn(d: Dict<Value>, key: string) returns (r: Result<Dict<Value>>)
    ensures r == Padded(d, key)
  {
    var n := PadCount(d, key);
    if n.Err? {
      return Err(n.error);
    }
    var col0 := Get(d, key).value;
    var items := if col0.List? then col0.items else [];
    var cur := d;
    for i := 0 to n.value
      invariant i == 0 ==> cur == d
      invariant i > 0 ==> col0.List?
      invariant i > 0 ==> cur == SetItem(d, key, List(items + Nulls(i)))
    {
      var col := Get(cur, key).value;
      var appended := Append(col, Null);
      if appended.Err? {
        return Err(appended.error);
      }
      assert col == List(items + Nulls(i)) by {
        if i == 0 {
          assert items + Nulls(0) == items;
        } else {
          GetSetItem(d, key, List(items + Nulls(i)), key);
        }
      }
      assert SetItem(cur, key, appended.value) == SetItem(d, key, List(items + Nulls(i + 1))) by {
        assert items + Nulls(i) + [Null] == items + Nulls(i + 1);
        if i > 0 {
          SetItemTwice(d, key, List(items + Nulls(i)), List(items + Nulls(i + 1)));
        }
      }
      cur := SetItem(cur, key, appended.value);
    }
    return Ok(cur);
  }

  // ---------------------------------------------------------------- clean_matches

  /** `[clean_team_name(x) for x in d[key]]` when `key` is present. */
  function CleanNameColumn(d: Dict<Value>, key: string): (r: Result<Dict<Value>>)
    ensures r.Ok? ==> Keys(r.value) == Keys(d)
    ensures r.Ok? ==> forall k :: k != key ==> Get(r.value, k) == Get(d, k)
    ensures !Has(d, key) ==> r == Ok(d)
  {
    if Has(d, key) then
      var v :- CleanColumn(TeamName, Get(d, key).value);
      var r := SetItem(d, key, v);
      assert forall k :: k != key ==> Get(r, k) == Get(d, k) by {
        forall k | k != key ensures Get(r, k) == Get(d, k) {
          GetSetItem(d, key, v, k);
        }
      }
      Ok(r)
    else Ok(d)
  }

  /** The team-name loop over 'home', 'away' and 'opponent'. */
  function CleanNames(d: Dict<Value>): (r: Result<Dict<Value>>)
    ensures r.Ok? ==> Keys(r.value) == Keys(d)
    ensures r.Ok? ==> forall k :: k != "home" && k != "away" && k != "opponent" ==> Get(r.value, k) == Get(d, k)
  {
    var a :- CleanNameColumn(d, "home");
    var b :- CleanNameColumn(a, "away");
    CleanNameColumn(b, "opponent")
  }

  /** `convert_matches_dict_dtypes`, as a specification: the integer columns
      converted, every other column copied, key order kept. */
  function MatchesDtypes(d: Dict<Value>): (r: Result<Dict<Value>>)
    ensures r.Ok? ==> Keys(r.value) == Keys(d)
    ensures r.Ok? ==> forall j :: 0 <= j < |d| ==>
      && (d[j].0 in MatchesIntKeys ==> ConvertListFromStr(d[j].1, "int") == Ok(r.value[j].1))
      && (d[j].0 !in MatchesIntKeys ==> r.value[j].1 == d[j].1)
    ensures r.Ok? <==> forall j :: 0 <= j < |d| ==> d[j].0 in MatchesIntKeys ==> ConvertListFromStr(d[j].1, "int").Ok?
  {
    ConvertedDtypes(d, MatchesIntKeys, [])
  }

  /** `clean_matches` after the table-specific columns, up to the reorientation: the
      id columns padded to the length of 'date' ('league_id' only when present), team
      names cleaned, unwanted columns dropped, integers converted and the keys put in
      the fixed order. The 'date' column comes through unchanged. */
  function MatchesColumnsCleaned(d: Dict<Value>): (r: Result<Dict<Value>>)
    ensures r.Ok? ==> Get(r.value, "date") == Get(d, "date")
    ensures r.Ok? ==> IsSubseq(Keys(r.value), MatchesOrder)
    ensures r.Ok? ==> Padded(d, "match_id").Ok?
  {
    var p1 :- Padded(d, "match_id");
    var p2 :- if Has(p1, "league_id") then Padded(p1, "league_id") else Ok(p1);
    var named :- CleanNames(p2);
    var kept := DeleteAll(named, MatchesDeleteKeys);
    var converted :- MatchesDtypes(kept);
    DateFacts();
    assert Get(named, "date") == Get(d, "date") by {
      assert Get(p2, "date") == Get(d, "date");
    }
    assert Get(kept, "date") == Get(d, "date") by {
      GetDeleteAll(named, MatchesDeleteKeys, "date");
    }
    assert Get(converted, "date") == Get(d, "date") by {
      GetConvertedDtypes(kept, MatchesIntKeys, [], "date");
    }
    var projected := Project(converted, MatchesOrder);
    assert Get(projected, "date") == Get(d, "date") by {
      GetProject(converted, MatchesOrder, "date");
    }
    ProjectKeysSubseq(converted, MatchesOrder);
    Ok(projected)
  }

  /** `clean_matches` after the table-specific columns: the cleaned columns made
      into one record per date. */
  function CleanMatchesDict(d: Dict<Value>): Result<Dict<Value>> {
    var projected :- MatchesColumnsCleaned(d);
    ChangeDictOrientation(projected, "date")
  }

  lemma DateFacts()
    ensures "date" !in MatchesDeleteKeys && "date" !in MatchesIntKeys && "date" in MatchesOrder
    ensures "date" != "match_id" && "date" != "league_id"
    ensures "date" != "home" && "date" != "away" && "date" != "opponent"
  {
    assert MatchesOrder[1] == "date";
  }

  /** A cleaned matches dict holds one record per entry of the 'date' column, and
      the padded 'match_id' column is at least as long as 'date'. */
  lemma CleanMatchesDictRecords(d: Dict<Value>)
    requires CleanMatchesDict(d).Ok?
    ensures Has(d, "date") && Len(Get(d, "date").value).Ok?
    ensures var p1 := Padded(d, "match_id").value;
      && Has(p1, "match_id") && Len(Get(p1, "match_id").value).Ok?
      && Len(Get(p1, "match_id").value).value >= Len(Get(d, "date").value).value
    ensures CleanMatchesDict(d).value == [("data", CleanMatchesDict(d).value[0].1)]
    ensures CleanMatchesDict(d).value[0].1.List?
    ensures |CleanMatchesDict(d).value[0].1.items| == Len(Get(d, "date").value).value
  {
    var projected := MatchesColumnsCleaned(d).value;
    assert Get(projected, "date") == Get(d, "date");
    var p1 := Padded(d, "match_id").value;
    var count := PadCount(d, "match_id").value;
    if count == 0 {
      assert p1 == d;
    }
  }

  /** The table's columns, read as a league table when the URL names a competition
      and as a team table otherwise; `second` is the part of the score the away
      column takes. */
  function MatchColumns(t: Table, url: string, second: bool): Result<Dict<Value>> {
    var d0 :- ParseTableData(t, false, 0, false);
    var rows := ParseTableRows(t);
    var matchIds :- ItemsOf(rows, [UrlMatcher(MatchId)]);
    var leagueIds :- ItemsOf(rows, [UrlMatcher(CompId)]);
    if IsLeagueUrl(url) then
      var ids := HomeAndAwayIds(SliceFrom(rows, 1), UrlMatcher(SquadId));
      LeagueColumns(d0, matchIds, ids.0, ids.1, second)
    else
      var opponentIds :- ItemsOf(rows, [UrlMatcher(SquadId)]);
      TeamColumns(d0, matchIds, leagueIds, opponentIds)
  }

  /** `clean_matches` as written: the away score is the home score. */
  function CleanMatches(t: Table, url: string): Result<Dict<Value>> {
    var d :- MatchColumns(t, url, false);
    CleanMatchesDict(d)
  }

  /** `clean_matches` with the away score read from the second part of the score. */
  function CleanMatchesFixed(t: Table, url: string): Result<Dict<Value>> {
    var d :- MatchColumns(t, url, true);
    CleanMatchesDict(d)
  }

  /** The steps after the table-specific columns, updating the dict as the source
      does: two padding loops, then the key-by-key loops. */
  method CleanMatchesDictSteps(d: Dict<Value>) returns (r: Result<Dict<Value>>)
    ensures r == CleanMatchesDict(d)
  {
    var cur :- PadColumn(d, "match_id");
    if Has(cur, "league_id") {
      cur :- PadColumn(cur, "league_id");
    }
    cur :- CleanNames(cur);
    cur := DeleteDictKeys(cur, MatchesDeleteKeys);
    cur :- ConvertDictDtypes(cur, MatchesIntKeys, []);
    cur := Project(cur, MatchesOrder);
    r := ChangeDictOrientationLoop(cur, "date");
  }

  /** `clean_matches`, as written, step by step. */
  method CleanMatchesSteps(t: Table, url: string) returns (r: Result<Dict<Value>>)
    ensures r == CleanMatches(t, url)
  {
    var d0 :- ParseTableData(t, false, 0, false);
    var matchIds := GetAllItemsFromTableUrls(t, [UrlMatcher(MatchId)]);
    var leagueIds := GetAllItemsFromTableUrls(t, [UrlMatcher(CompId)]);
    var d: Dict<Value>;
    if IsLeagueUrl(url) {
      var home, away := HomeAndAwayIdsLoop(t, UrlMatcher(SquadId));
      d :- LeagueColumns(d0, matchIds.value, home, away, false);
    } else {
      var opponentIds := GetAllItemsFromTableUrls(t, [UrlMatcher(SquadId)]);
      d :- TeamColumns(d0, matchIds.value, leagueIds.value, opponentIds.value);
    }
    r := CleanMatchesDictSteps(d);
  }

  // ---------------------------------------------------------------- scraping

  /** `get_matches_table_from_caption`: the first table whose caption a pattern
      finds; no table found makes `None[0]` raise TypeError. */
  function MatchesTable(tables: seq<Table>, patterns: seq<Finder>): (r: Result<Table>)
    ensures TablesFromCaption(tables, patterns) == Ok(None) ==> r == Err(TypeError)
    ensures r.Ok? ==> r.value in tables
  {
    var found :- TablesFromCaption(tables, patterns);
    match found
    case None => Err(TypeError)
    case Some(ts) =>
      var sel := ScanTables(tables, patterns).value;
      assert ts[0] == tables[sel.picked[0]];
      Ok(ts[0])
  }

  /** `scrape_clean_data`: the URL built from the ids, the page at that URL (given
      here as `page`, since fetching is not modelled), its matches table, cleaned
      as written. Without either id nothing is fetched: ValueError. */
  function ScrapeCleanData(teamId: Option<string>, leagueId: Option<string>, seasonId: Option<string>,
                           page: string -> seq<Table>, patterns: seq<Finder>): (r: Result<Dict<Value>>)
    ensures teamId.None? && leagueId.None? ==> r == Err(ValueError)
    ensures r.Ok? ==> (MatchesUrl(teamId, leagueId, seasonId).Ok?
      && MatchesTable(page(MatchesUrl(teamId, leagueId, seasonId).value), patterns).Ok?)
  {
    var url :- MatchesUrl(teamId, leagueId, seasonId);
    var table :- MatchesTable(page(url), patterns);
    CleanMatches(table, url)
  }
}
