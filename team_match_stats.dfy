/** The team-match stats scraper: one record per match of a team's league season, from
    the team's per-category match-log tables. */
module TeamMatchStats {
  import opened Wrappers
  import opened Dicts
  import opened Values
  import opened Patterns
  import opened FbrefScraper
  import opened StatsScraper
  import opened StatCategories
  import opened Reassembly

  const AdvancedStatIds: seq<string> := [
    "schedule", "keeper", "shooting", "passing", "passing_types", "gca", "defense", "possession", "misc"]

  const BasicStatIds: seq<string> := ["schedule", "keeper", "shooting", "misc"]

  /** The stat ids of `scrape_all_team_match_stats`: the 9 advanced ids for 'yes' and
      the 4 basic ids for any other value; both start with 'schedule'. */
  function GetStatIds(hasAdvStats: Value): (r: seq<string>)
    ensures hasAdvStats == Str("yes") <==> r == AdvancedStatIds
    ensures hasAdvStats != Str("yes") <==> r == BasicStatIds
    ensures |r| > 0 && r[0] == "schedule"
    ensures Lists.Distinct(r)
  {
    if hasAdvStats == Str("yes") then AdvancedStatIds else BasicStatIds
  }

  /** The parse options of `scrape_team_match_stats`: the schedule table has no
      pre-header row and no totals row, every other log has both. */
  function ParseOptions(statId: string): (r: (bool, int))
    ensures r.0 <==> statId != "schedule"
    ensures r.1 == (if r.0 then 1 else 0)
  {
    if statId != "schedule" then (true, 1) else (false, 0)
  }

  /** The id columns every match log gets: the match and the opponent. */
  function MatchIdColumns(): seq<IdColumn> {
    [IdColumn("match_id", [UrlMatcher(MatchId)]), IdColumn("opponent_id", [UrlMatcher(SquadId)])]
  }

  /** The match-log URL of one stat id. */
  function MatchLogUrl(teamId: string, seasonId: string, leagueId: int, statId: string): string {
    "https://fbref.com/en/squads/" + teamId + "/" + seasonId + "/matchlogs/c" + IntToString(leagueId) + "/" + statId
  }

  /** `scrape_team_match_stats`, given the tables of the fetched page: the page's first
      table parsed with the stat id's options, plus the id columns; IndexError for a
      page without tables. */
  function ScrapeTeamMatchStats(pageTables: seq<Table>, statId: string): (r: Result<Dict<Value>>)
    ensures |pageTables| == 0 ==> r == Err(IndexError)
  {
    if |pageTables| == 0 then Err(IndexError)
    else
      var (skipRow, dropRows) := ParseOptions(statId);
      StatDictOf(pageTables[0], skipRow, dropRows, false, MatchIdColumns())
  }

  /** A scraped match log holds the match ids and the opponent ids read from the
      links of the first table, and every other column of that table as parsed with
      the stat id's options. */
  lemma ScrapeTeamMatchStatsColumns(pageTables: seq<Table>, statId: string)
    requires ScrapeTeamMatchStats(pageTables, statId).Ok?
    ensures |pageTables| > 0
    ensures var t := pageTables[0];
      var skipRow := statId != "schedule";
      var dropRows := if skipRow then 1 else 0;
      var r := ScrapeTeamMatchStats(pageTables, statId).value;
      && StatTableData(t, skipRow, dropRows, false).Ok?
      && StatTableItems(t, [UrlMatcher(MatchId)], skipRow).Ok?
      && StatTableItems(t, [UrlMatcher(SquadId)], skipRow).Ok?
      && Get(r, "match_id") == Some(List(Strs(StatTableItems(t, [UrlMatcher(MatchId)], skipRow).value)))
      && Get(r, "opponent_id") == Some(List(Strs(StatTableItems(t, [UrlMatcher(SquadId)], skipRow).value)))
      && forall k :: k != "match_id" && k != "opponent_id" ==>
           Get(r, k) == Get(StatTableData(t, skipRow, dropRows, false).value, k)
  {
    var t := pageTables[0];
    var (skipRow, dropRows) := ParseOptions(statId);
    var d := StatTableData(t, skipRow, dropRows, false);
    assert d.Ok?;
    var ids := MatchIdColumns();
    GetAddTwoIdColumns(d.value, t, skipRow, ids, "match_id");
    GetAddTwoIdColumns(d.value, t, skipRow, ids, "opponent_id");
    forall k | k != "match_id" && k != "opponent_id"
      ensures Get(AddIdColumns(d.value, t, skipRow, ids).value, k) == Get(d.value, k)
    {
      GetAddTwoIdColumns(d.value, t, skipRow, ids, k);
    }
  }

  /** `scrape_all_team_match_stats`: the league entry's `has_adv_stats` picks the stat
      ids (a missing entry cannot be unpacked), and each stat id's page is scraped and
      stored under it, in order. `fetch` stands for requesting a URL and extracting the
      page's tables. */
  function ScrapeAllTeamMatchStats(leagueEntry: Option<(Value, Value)>, teamId: string, seasonId: string,
                                   leagueId: int, fetch: string -> seq<Table>): Result<Categories>
  {
    if leagueEntry.None? then Err(TypeError)
    else
      var statIds := GetStatIds(leagueEntry.value.0);
      var scraped := seq(|statIds|, j requires 0 <= j < |statIds| =>
        ScrapeTeamMatchStats(fetch(MatchLogUrl(teamId, seasonId, leagueId, statIds[j])), statIds[j]));
      BindUpTo(scraped, statIds, |scraped|)
  }

  /** A successful scrape holds every stat id, in order, each with its own page's
      category. */
  lemma ScrapeAllTeamMatchStatsShape(leagueEntry: Option<(Value, Value)>, teamId: string, seasonId: string,
                                     leagueId: int, fetch: string -> seq<Table>)
    requires ScrapeAllTeamMatchStats(leagueEntry, teamId, seasonId, leagueId, fetch).Ok?
    ensures leagueEntry.Some?
    ensures var r := ScrapeAllTeamMatchStats(leagueEntry, teamId, seasonId, leagueId, fetch).value;
      var statIds := GetStatIds(leagueEntry.value.0);
      && Keys(r) == statIds
      && forall j :: 0 <= j < |statIds| ==>
           Ok(r[j].1) == ScrapeTeamMatchStats(fetch(MatchLogUrl(teamId, seasonId, leagueId, statIds[j])), statIds[j])
  {
    var statIds := GetStatIds(leagueEntry.value.0);
    var scraped := seq(|statIds|, j requires 0 <= j < |statIds| =>
      ScrapeTeamMatchStats(fetch(MatchLogUrl(teamId, seasonId, leagueId, statIds[j])), statIds[j]));
    BindUpToShape(scraped, statIds, |scraped|);
    assert statIds[..|scraped|] == statIds;
  }

  // ---------------------------------------------------------------- cleaning

  /** `clean_team_match_stats`: threshold 5, every category cleaned in place, then one
      reorientation with a record per `schedule.match_id` entry. */
  function CleanTeamMatchStats(d: Categories, cm: ColumnMap): Result<Value> {
    var c :- CleanAll(d, GetAdvOrNadvCmap(|d|, 5, cm), false);
    Reorient(c, cm.metaData, "schedule", "match_id")
  }

  /** The cleaning loop and the reorientation. */
  method CleanTeamMatchStatsLoop(d: Categories, cm: ColumnMap) returns (r: Result<Value>)
    ensures r == CleanTeamMatchStats(d, cm)
  {
    var c := CleanCategories(d, GetAdvOrNadvCmap(|d|, 5, cm), false);
    if c.Err? {
      return Err(c.error);
    }
    r := ReorientStats(c.value, cm.metaData, "schedule", "match_id");
  }

  /** A successful clean has one record per cleaned `schedule.match_id` entry, each
      with a stats sub-map for every category. */
  lemma CleanTeamMatchStatsShape(d: Categories, cm: ColumnMap)
    requires CleanTeamMatchStats(d, cm).Ok?
    ensures var cmap := GetAdvOrNadvCmap(|d|, 5, cm);
      && CleanAll(d, cmap, false).Ok?
      && var c := CleanAll(d, cmap, false).value;
         var n := Len(Get(Get(c, "schedule").value, "match_id").value).value;
         && CleanTeamMatchStats(d, cm).value == DataOf(Reassembly.Records(cm.metaData, false, c, n))
         && Keys(c) == Keys(d)
         && forall i :: 0 <= i < n ==>
              var rec := Reassembly.Records(cm.metaData, false, c, n)[i];
              rec.Map? && Get(rec.m, "stats").Some? && Get(rec.m, "stats").value.Map?
              && Keys(Get(rec.m, "stats").value.m) == Keys(d)
  {
    var cmap := GetAdvOrNadvCmap(|d|, 5, cm);
    var c := CleanAll(d, cmap, false).value;
    ReorientShape(c, cm.metaData, "schedule", "match_id");
    CleanAllShape(d, cmap, false);
  }
}
