/** The player-match stats scraper: one record per match of a player's league season,
    from the player's per-category match-log tables. */
module PlayerMatchStats {
  import opened Wrappers
  import opened Dicts
  import opened Values
  import opened Lists
  import opened Patterns
  import opened FbrefScraper
  import opened StatsScraper
  import opened StatCategories
  import opened Reassembly

  const AdvancedStatIds: seq<string> := ["summary", "passing", "passing_types", "gca", "defense", "possession", "misc"]

  const BasicStatIds: seq<string> := ["summary"]

  /** The stat ids of `scrape_all_player_match_stats`: the 7 advanced ids for 'yes' and
      only 'summary' for any other value. */
  function GetStatIds(hasAdvStats: Value): (r: seq<string>)
    ensures hasAdvStats == Str("yes") <==> r == AdvancedStatIds
    ensures hasAdvStats != Str("yes") <==> r == BasicStatIds
    ensures |r| > 0 && r[0] == "summary"
    ensures Distinct(r)
  {
    if hasAdvStats == Str("yes") then AdvancedStatIds else BasicStatIds
  }

  // ---------------------------------------------------------------- team and opponent ids

  /** `parse_pattern_from_url([r"squads/(\w{8})/"], href)` */
  function SquadIdOf(href: string): (r: Option<string>)
    ensures r == FirstMatch(SquadId, href)
  {
    var patterns := [UrlMatcher(SquadId)];
    assert FirstHit(patterns, href, 1) == None;
    assert patterns[0](href) == FirstMatch(SquadId, href);
    match ParsePatternFromUrl(patterns, href)
    case Ok(x) => x
    case Err(_) => None
  }

  /** The `home_away` list of one row: the distinct squad ids of its non-empty hrefs, in
      href order. */
  function RowSquadIds(hrefs: seq<string>): (r: seq<string>)
    ensures Distinct(r)
    ensures forall i :: 0 <= i < |r| ==> IsGroup(SquadId, r[i])
    ensures forall j :: 0 <= j < |hrefs| && hrefs[j] != "" && SquadIdOf(hrefs[j]).Some? ==> SquadIdOf(hrefs[j]).value in r
  {
    if |hrefs| == 0 then []
    else
      var p := RowSquadIds(hrefs[..|hrefs| - 1]);
      var h := hrefs[|hrefs| - 1];
      var ha := SquadIdOf(h);
      assert forall j :: 0 <= j < |hrefs| - 1 ==> hrefs[j] == hrefs[..|hrefs| - 1][j];
      if h != "" && ha.Some? && ha.value !in p then p + [ha.value] else p
  }

  /** What one row appends to `team` and `opponent`. The appends sit in one `try`, so a
      row with a single id gives `team` that id and then None, and `opponent` one None. */
  function RowIdValues(ids: seq<string>): (r: (seq<Value>, seq<Value>))
  {
    if |ids| >= 2 then ([Str(ids[0])], [Str(ids[1])])
    else if |ids| == 1 then ([Str(ids[0]), Null], [Null])
    else ([Null], [Null])
  }

  /** The lists after the first `k` rows. */
  function IdsUpTo(rows: seq<Row>, k: nat): (seq<Value>, seq<Value>)
    requires k <= |rows|
  {
    if k == 0 then ([], [])
    else
      var p := IdsUpTo(rows, k - 1);
      var r := RowIdValues(RowSquadIds(rows[k - 1].hrefs));
      (p.0 + r.0, p.1 + r.1)
  }

  /** `get_team_and_opponent_ids`: the stat rows without the header and without the
      last `dropRows` rows (`[1:-drop_rows]`, which is empty when `dropRows` is 0). */
  function TeamAndOpponentIds(t: Table, skipRow: bool, dropRows: int): Result<(seq<Value>, seq<Value>)> {
    var rows :- StatTableRows(t, skipRow);
    var body := Slice(rows, 1, -dropRows);
    Ok(IdsUpTo(body, |body|))
  }

  /** Number of rows among the first `k` with exactly one squad id. */
  function SingleIdRows(rows: seq<Row>, k: nat): nat
    requires k <= |rows|
  {
    if k == 0 then 0 else SingleIdRows(rows, k - 1) + (if |RowSquadIds(rows[k - 1].hrefs)| == 1 then 1 else 0)
  }

  /** `opponent` has one entry per row, and `team` one more for every row with exactly
      one squad id. */
  lemma {:induction false} IdsUpToLengths(rows: seq<Row>, k: nat)
    requires k <= |rows|
    ensures |IdsUpTo(rows, k).1| == k
    ensures |IdsUpTo(rows, k).0| == k + SingleIdRows(rows, k)
  {
    if k > 0 {
      var m: nat := k - 1;
      IdsUpToLengths(rows, m);
    }
  }

  /** Both lists after the first `k` rows are row-aligned: entry `i` is the first
      (for `team`) or second (for `opponent`) id of row `i`, or None. */
  ghost predicate IdsAlignedUpTo(rows: seq<Row>, k: nat)
    requires k <= |rows|
  {
    var (team, opponent) := IdsUpTo(rows, k);
    && |team| == k && |opponent| == k
    && forall i :: 0 <= i < k ==>
         var ids := RowSquadIds(rows[i].hrefs);
         && team[i] == (if |ids| > 0 then Str(ids[0]) else Null)
         && opponent[i] == (if |ids| >= 2 then Str(ids[1]) else Null)
  }

  /** A row without exactly one squad id keeps the lists aligned. */
  lemma IdsAlignedStep(rows: seq<Row>, m: nat)
    requires m < |rows| && IdsAlignedUpTo(rows, m) && |RowSquadIds(rows[m].hrefs)| != 1
    ensures IdsAlignedUpTo(rows, m + 1)
  {
    var (team, opponent) := IdsUpTo(rows, m + 1);
    var (pt, po) := IdsUpTo(rows, m);
    assert |team| == m + 1 && |opponent| == m + 1;
    forall i | 0 <= i < m ensures team[i] == pt[i] && opponent[i] == po[i] {
    }
  }

  /** When no row has exactly one squad id, both lists are row-aligned. */
  lemma IdsUpToAligned(rows: seq<Row>, k: nat)
    requires k <= |rows| && SingleIdRows(rows, k) == 0
    ensures IdsAlignedUpTo(rows, k)
  {
    var n := 0;
    while n < k
      invariant n <= k && IdsAlignedUpTo(rows, n)
    {
      SingleIdRowsPrefix(rows, n + 1, k);
      IdsAlignedStep(rows, n);
      n := n + 1;
    }
  }

  /** No single-id row among the first `k` rows means none among fewer. */
  lemma {:induction false} SingleIdRowsPrefix(rows: seq<Row>, j: nat, k: nat)
    requires j <= k <= |rows| && SingleIdRows(rows, k) == 0
    ensures SingleIdRows(rows, j) == 0
    decreases k - j
  {
    if j < k {
      SingleIdRowsPrefix(rows, j + 1, k);
    }
  }

  /** With `dropRows` 0 the slice `[1:-0]` is empty, so no ids are collected at all. */
  lemma TeamAndOpponentIdsNoDrop(t: Table, skipRow: bool)
    requires StatTableRows(t, skipRow).Ok?
    ensures TeamAndOpponentIds(t, skipRow, 0) == Ok(([], []))
  {
  }

  /** The loops of `get_team_and_opponent_ids`. */
  method GetTeamAndOpponentIds(t: Table, skipRow: bool, dropRows: int) returns (r: Result<(seq<Value>, seq<Value>)>)
    ensures r == TeamAndOpponentIds(t, skipRow, dropRows)
  {
    var rows := ParseStatTableRows(t, skipRow);
    if rows.Err? {
      return Err(rows.error);
    }
    var body := Slice(rows.value, 1, -dropRows);
    var team: seq<Value> := [];
    var opponent: seq<Value> := [];
    for i := 0 to |body|
      invariant (team, opponent) == IdsUpTo(body, i)
    {
      var homeAway := RowSquadIdsLoop(body[i].hrefs);
      assert IdsUpTo(body, i + 1) == (team + RowIdValues(homeAway).0, opponent + RowIdValues(homeAway).1);
      team, opponent := AppendIdValues(team, opponent, homeAway);
    }
    return Ok((team, opponent));
  }

  /** The inner loop over one row's links, collecting new squad ids. */
  method RowSquadIdsLoop(hrefs: seq<string>) returns (homeAway: seq<string>)
    ensures homeAway == RowSquadIds(hrefs)
  {
    homeAway := [];
    for j := 0 to |hrefs|
      invariant homeAway == RowSquadIds(hrefs[..j])
    {
      assert hrefs[..j + 1][..j] == hrefs[..j];
      if hrefs[j] != "" {
        var ha := SquadIdOf(hrefs[j]);
        if ha.Some? && ha.value !in homeAway {
          homeAway := homeAway + [ha.value];
        }
      }
    }
    assert hrefs[..|hrefs|] == hrefs;
  }

  /** The appends for one row: its first id or None to `team`, then its second id or
      None to `opponent`; with a single id, None goes to both. */
  method AppendIdValues(team: seq<Value>, opponent: seq<Value>, homeAway: seq<string>)
    returns (team': seq<Value>, opponent': seq<Value>)
    ensures team' == team + RowIdValues(homeAway).0 && opponent' == opponent + RowIdValues(homeAway).1
  {
    if |homeAway| >= 1 {
      team' := team + [Str(homeAway[0])];
      if |homeAway| >= 2 {
        opponent' := opponent + [Str(homeAway[1])];
      } else {
        team' := team' + [Null];
        opponent' := opponent + [Null];
      }
    } else {
      team' := team + [Null];
      opponent' := opponent + [Null];
    }
  }

  // ---------------------------------------------------------------- table parsing

  /** The rows `parse_player_match_stat_table_data` transposes: all non-spacer rows'
      cells, less row 0 when `skipRow`, less the trailing rows to drop, less every row
      whose length differs from the first one's (IndexError when none is left). */
  function PlayerMatchRowsKept(t: Table, skipRow: bool, dropRows: int, excludeTotals: bool)
    : (r: Result<seq<seq<string>>>)
    ensures r.Ok? ==> SelectRows(RowData(ParseTableRows(t)), skipRow, dropRows, excludeTotals).Ok?
    ensures r.Ok? ==>
      var selected := SelectRows(RowData(ParseTableRows(t)), skipRow, dropRows, excludeTotals).value;
      && |selected| > 0 && |r.value| > 0 && r.value[0] == selected[0]
      && (forall k :: 0 <= k < |r.value| ==> |r.value[k]| == |selected[0]| && r.value[k] in selected)
      && (forall k :: 0 <= k < |selected| && |selected[k]| == |selected[0]| ==> selected[k] in r.value)
  {
    var rows :- SelectRows(RowData(ParseTableRows(t)), skipRow, dropRows, excludeTotals);
    if |rows| == 0 then Err(IndexError)
    else Ok(KeepWidth(rows, |rows[0]|))
  }

  /** `parse_player_match_stat_table_data` */
  function ParsePlayerMatchStatTableData(t: Table, skipRow: bool, dropRows: int, excludeTotals: bool)
    : Result<Dict<Value>>
  {
    var rows :- PlayerMatchRowsKept(t, skipRow, dropRows, excludeTotals);
    ConvertRowDataToDict(rows)
  }

  /** The parsed table is rectangular, with one entry per kept data row in every column. */
  lemma ParsePlayerMatchStatTableDataRectangular(t: Table, skipRow: bool, dropRows: int, excludeTotals: bool)
    requires ParsePlayerMatchStatTableData(t, skipRow, dropRows, excludeTotals).Ok?
    ensures ColumnsOfLength(ParsePlayerMatchStatTableData(t, skipRow, dropRows, excludeTotals).value,
                            |PlayerMatchRowsKept(t, skipRow, dropRows, excludeTotals).value| - 1)
  {
  }

  // ---------------------------------------------------------------- scraping

  /** The match-log URL of one stat id. */
  function MatchLogUrl(playerId: string, leagueId: int, seasonId: string, statId: string): string {
    "https://fbref.com/en/players/" + playerId + "/matchlogs/" + seasonId + "/c" + IntToString(leagueId) + "/" + statId + "/"
  }

  /** `scrape_player_match_stats`, given the tables of the fetched page: the first table
      parsed without its pre-header and last row, its match ids, and the team and
      opponent ids. */
  function ScrapePlayerMatchStats(pageTables: seq<Table>): Result<Dict<Value>> {
    if |pageTables| == 0 then Err(IndexError)
    else
      var t := pageTables[0];
      var sd :- StatDictOf(t, true, 1, false, [IdColumn("match_id", [UrlMatcher(MatchId)])]);
      var ids :- TeamAndOpponentIds(t, true, 1);
      Ok(SetItem(SetItem(sd, "team_id", List(ids.0)), "opponent_id", List(ids.1)))
  }

  /** `scrape_all_player_match_stats`: each stat id's page scraped and stored under it,
      in order; `fetch` stands for requesting a URL and extracting the page's tables. */
  function ScrapeAllPlayerMatchStats(leagueEntry: Option<(Value, Value)>, playerId: string, leagueId: int,
                                     seasonId: string, fetch: string -> seq<Table>): Result<Categories>
  {
    if leagueEntry.None? then Err(TypeError)
    else
      var statIds := GetStatIds(leagueEntry.value.0);
      var scraped := seq(|statIds|, j requires 0 <= j < |statIds| =>
        ScrapePlayerMatchStats(fetch(MatchLogUrl(playerId, leagueId, seasonId, statIds[j]))));
      BindUpTo(scraped, statIds, |scraped|)
  }

  /** A successful scrape holds every stat id, in order, each with its own page's
      category, which carries the match, team and opponent ids. */
  lemma ScrapeAllPlayerMatchStatsShape(leagueEntry: Option<(Value, Value)>, playerId: string, leagueId: int,
                                       seasonId: string, fetch: string -> seq<Table>)
    requires ScrapeAllPlayerMatchStats(leagueEntry, playerId, leagueId, seasonId, fetch).Ok?
    ensures leagueEntry.Some?
    ensures var r := ScrapeAllPlayerMatchStats(leagueEntry, playerId, leagueId, seasonId, fetch).value;
      var statIds := GetStatIds(leagueEntry.value.0);
      && Keys(r) == statIds
      && forall j :: 0 <= j < |statIds| ==>
           && Ok(r[j].1) == ScrapePlayerMatchStats(fetch(MatchLogUrl(playerId, leagueId, seasonId, statIds[j])))
           && Has(r[j].1, "match_id") && Has(r[j].1, "team_id") && Has(r[j].1, "opponent_id")
  {
    var statIds := GetStatIds(leagueEntry.value.0);
    var scraped := seq(|statIds|, j requires 0 <= j < |statIds| =>
      ScrapePlayerMatchStats(fetch(MatchLogUrl(playerId, leagueId, seasonId, statIds[j]))));
    BindUpToShape(scraped, statIds, |scraped|);
    assert statIds[..|scraped|] == statIds;
    var r := ScrapeAllPlayerMatchStats(leagueEntry, playerId, leagueId, seasonId, fetch).value;
    forall j | 0 <= j < |statIds| ensures Has(r[j].1, "match_id") && Has(r[j].1, "team_id") && Has(r[j].1, "opponent_id") {
      ScrapedHasIds(fetch(MatchLogUrl(playerId, leagueId, seasonId, statIds[j])));
    }
  }

  lemma ScrapedHasIds(pageTables: seq<Table>)
    requires ScrapePlayerMatchStats(pageTables).Ok?
    ensures var d := ScrapePlayerMatchStats(pageTables).value;
      Has(d, "match_id") && Has(d, "team_id") && Has(d, "opponent_id")
  {
    var t := pageTables[0];
    var ids := [IdColumn("match_id", [UrlMatcher(MatchId)])];
    var sd := StatDictOf(t, true, 1, false, ids).value;
    var d0 := StatTableData(t, true, 1, false).value;
    GetAddIdColumns(d0, t, true, ids, "match_id");
    var s1 := SetItem(sd, "team_id", List(TeamAndOpponentIds(t, true, 1).value.0));
    GetSetItem(sd, "team_id", List(TeamAndOpponentIds(t, true, 1).value.0), "match_id");
    GetSetItem(s1, "opponent_id", List(TeamAndOpponentIds(t, true, 1).value.1), "match_id");
    GetSetItem(s1, "opponent_id", List(TeamAndOpponentIds(t, true, 1).value.1), "team_id");
    GetSetItem(sd, "team_id", List(TeamAndOpponentIds(t, true, 1).value.0), "team_id");
  }

  // ---------------------------------------------------------------- cleaning

  /** `clean_player_match_stats`: threshold 1, every category cleaned in place, then one
      reorientation with a record per `summary.match_id` entry. */
  function CleanPlayerMatchStats(d: Categories, cm: ColumnMap): Result<Value> {
    var c :- CleanAll(d, GetAdvOrNadvCmap(|d|, 1, cm), false);
    Reorient(c, cm.metaData, "summary", "match_id")
  }

  method CleanPlayerMatchStatsLoop(d: Categories, cm: ColumnMap) returns (r: Result<Value>)
    ensures r == CleanPlayerMatchStats(d, cm)
  {
    var c := CleanCategories(d, GetAdvOrNadvCmap(|d|, 1, cm), false);
    if c.Err? {
      return Err(c.error);
    }
    r := ReorientStats(c.value, cm.metaData, "summary", "match_id");
  }

  /** Any second category selects the advanced column map, and a successful clean has
      one record per cleaned `summary.match_id` entry, each with a stats sub-map for
      every category. */
  lemma CleanPlayerMatchStatsShape(d: Categories, cm: ColumnMap)
    requires CleanPlayerMatchStats(d, cm).Ok?
    ensures var cmap := GetAdvOrNadvCmap(|d|, 1, cm);
      && (|d| >= 2 ==> cmap == cm.advanced)
      && CleanAll(d, cmap, false).Ok?
      && var c := CleanAll(d, cmap, false).value;
         var n := Len(Get(Get(c, "summary").value, "match_id").value).value;
         && CleanPlayerMatchStats(d, cm).value == DataOf(Reassembly.Records(cm.metaData, false, c, n))
         && Keys(c) == Keys(d)
         && forall i :: 0 <= i < n ==>
              var rec := Reassembly.Records(cm.metaData, false, c, n)[i];
              rec.Map? && Get(rec.m, "stats").Some? && Get(rec.m, "stats").value.Map?
              && Keys(Get(rec.m, "stats").value.m) == Keys(d)
  {
    var cmap := GetAdvOrNadvCmap(|d|, 1, cm);
    var c := CleanAll(d, cmap, false).value;
    ReorientShape(c, cm.metaData, "summary", "match_id");
    CleanAllShape(d, cmap, false);
  }
}
