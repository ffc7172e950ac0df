/** The team-season stats scraper: one record per team of a league season, from the
    league page's per-category squad tables. */
module TeamSeasonStats {
  import opened Wrappers
  import opened Dicts
  import opened Values
  import opened Patterns
  import opened FbrefScraper
  import opened StatsScraper
  import opened StatCategories
  import opened Reassembly

  const AdvancedStatIds: seq<string> := [
    "stats", "keepers", "keepersadv", "shooting", "passing", "passing_types",
    "gca", "defense", "possession", "playingtime", "misc"]

  const BasicStatIds: seq<string> := ["stats", "keepers", "shooting", "playingtime", "misc"]

  /** `get_stat_ids`: the 11 advanced ids for 'yes', the 5 basic ids for 'no', and
      ValueError for anything else. */
  function GetStatIds(hasAdvStats: Value): (r: Result<seq<string>>)
    ensures hasAdvStats == Str("yes") ==> r == Ok(AdvancedStatIds)
    ensures hasAdvStats == Str("no") ==> r == Ok(BasicStatIds)
    ensures r.Err? <==> hasAdvStats != Str("yes") && hasAdvStats != Str("no")
    ensures r.Err? ==> r.error == ValueError
  {
    if hasAdvStats == Str("yes") then Ok(AdvancedStatIds)
    else if hasAdvStats == Str("no") then Ok(BasicStatIds)
    else Err(ValueError)
  }

  const AdvancedStatPatterns: seq<string> := [
    "^Squad\\sStandard", "^Squad\\sGoalkeeping", "^Squad\\sAdvanced\\sGoalkeeping", "^Squad\\sShooting",
    "^Squad\\sPassing", "^Squad\\sPass\\sTypes", "^Squad\\sGoal\\sand\\sShot\\sCreation",
    "^Squad\\sDefensive\\sActions", "^Squad\\sPossession", "^Squad\\sPlaying\\sTime", "^Squad\\sMiscellaneous"]

  const BasicStatPatterns: seq<string> := [
    "^Squad\\sStandard", "^Squad\\sGoalkeeping", "^Squad\\sShooting", "^Squad\\sPlaying\\sTime",
    "^Squad\\sMiscellaneous"]

  lemma StatIdsDistinct(hasAdvStats: Value)
    requires GetStatIds(hasAdvStats).Ok?
    ensures Lists.Distinct(GetStatIds(hasAdvStats).value)
  {
    if hasAdvStats == Str("yes") {
      forall i, j | 0 <= i < j < |AdvancedStatIds| ensures AdvancedStatIds[i] != AdvancedStatIds[j] {
        assert AdvancedStatIds[i][..2] != AdvancedStatIds[j][..2] || AdvancedStatIds[i] != AdvancedStatIds[j];
      }
    }
  }

  /** `get_league_stat_patterns`: the caption patterns of the league page's tables. */
  function GetLeagueStatPatterns(hasAdvStats: Value): Result<seq<string>> {
    if hasAdvStats == Str("yes") then Ok(AdvancedStatPatterns)
    else if hasAdvStats == Str("no") then Ok(BasicStatPatterns)
    else Err(ValueError)
  }

  /** The patterns mirror the stat ids: they fail on the same inputs and there is one
      pattern per stat id. */
  lemma StatPatternsMirrorIds(hasAdvStats: Value)
    ensures GetStatIds(hasAdvStats).Ok? <==> GetLeagueStatPatterns(hasAdvStats).Ok?
    ensures GetLeagueStatPatterns(hasAdvStats).Err? ==> GetLeagueStatPatterns(hasAdvStats).error == ValueError
    ensures GetStatIds(hasAdvStats).Ok? ==> |GetStatIds(hasAdvStats).value| == |GetLeagueStatPatterns(hasAdvStats).value|
  {
  }

  /** `list.remove(x)`: the list without the first `x`, or ValueError when absent. */
  function ListRemove(xs: seq<string>, x: string): (r: Result<seq<string>>)
    ensures r.Err? <==> x !in xs
    ensures r.Err? ==> r.error == ValueError
    ensures r.Ok? ==> |r.value| == |xs| - 1
  {
    if |xs| == 0 then Err(ValueError)
    else if xs[0] == x then Ok(xs[1..])
    else
      var rest :- ListRemove(xs[1..], x);
      Ok([xs[0]] + rest)
  }

  /** The id column every team-season table gets. */
  function TeamIdColumns(): seq<IdColumn> {
    [IdColumn("team_id", [UrlMatcher(SquadId)])]
  }

  /** `scrape_stats_from_league` once the league entry is looked up and the page's
      tables are selected by caption: the stat ids, the special case for basic leagues
      with four tables, and table `i` bound to stat id `i`. `len(None)` raises TypeError
      when no table matched, and a missing league entry cannot be unpacked. */
  function StatsFromLeague(leagueEntry: Option<(Value, Value)>, statTables: Option<seq<Table>>): Result<Categories> {
    if leagueEntry.None? then Err(TypeError)
    else
      var statIds :- GetStatIds(leagueEntry.value.0);
      if statTables.None? then Err(TypeError)
      else
        var tables := statTables.value;
        var ids :- if leagueEntry.value.0 == Str("no") && |tables| == 4 then ListRemove(statIds, "passing") else Ok(statIds);
        BindTables(tables, ids, true, 0, false, TeamIdColumns())
  }

  /** A basic league with exactly four stat tables always fails: the basic ids have no
      'passing' to remove. */
  lemma BasicLeagueFourTablesFails(tables: seq<Table>, comp: Value)
    requires |tables| == 4
    ensures StatsFromLeague(Some((Str("no"), comp)), Some(tables)) == Err(ValueError)
  {
    assert "passing" !in BasicStatIds;
  }

  /** Otherwise the scrape succeeds only with no more tables than stat ids, and table
      `i` becomes the category of stat id `i`, parsed with the pre-header row skipped
      and a `team_id` column of squad ids. */
  lemma StatsFromLeagueBinds(leagueEntry: Option<(Value, Value)>, tables: seq<Table>)
    requires StatsFromLeague(leagueEntry, Some(tables)).Ok?
    ensures leagueEntry.Some? && GetStatIds(leagueEntry.value.0).Ok?
    ensures |tables| <= |GetStatIds(leagueEntry.value.0).value|
    ensures var r := StatsFromLeague(leagueEntry, Some(tables)).value;
      && Keys(r) == GetStatIds(leagueEntry.value.0).value[..|tables|]
      && forall j :: 0 <= j < |tables| ==> Ok(r[j].1) == StatDictOf(tables[j], true, 0, false, TeamIdColumns())
  {
    var statIds := GetStatIds(leagueEntry.value.0).value;
    StatIdsDistinct(leagueEntry.value.0);
    if leagueEntry.value.0 == Str("no") && |tables| == 4 {
      BasicLeagueFourTablesFails(tables, leagueEntry.value.1);
    }
    BindTablesShape(tables, statIds, true, 0, false, TeamIdColumns());
  }

  // ---------------------------------------------------------------- cleaning

  /** The cleaned categories so far and the last reorientation computed. */
  datatype ScanState = ScanState(cats: Categories, out: Option<Value>)

  /** A reorientation of a whole dict of categories. */
  type Orient = Categories -> Result<Value>

  /** The first `k` iterations of a loop that updates one category with `step` and
      then reorients the whole, partly updated, dict: the loop stops at the first
      failing step or reorientation. */
  function ScanUpTo(d: Categories, step: Step, orient: Orient, k: nat): Result<ScanState>
    requires k <= |d|
  {
    if k == 0 then Ok(ScanState(d, None))
    else
      var prev :- ScanUpTo(d, step, orient, k - 1);
      var cats :- UpdateUpTo(d, step, k);
      var o :- orient(cats);
      Ok(ScanState(cats, Some(o)))
  }

  /** After `k` iterations the categories are those of the plain update loop, and the
      reorientation is that of the dict as it then stands. */
  lemma ScanUpToState(d: Categories, step: Step, orient: Orient, k: nat)
    requires k <= |d| && ScanUpTo(d, step, orient, k).Ok?
    ensures var s := ScanUpTo(d, step, orient, k).value;
      && UpdateUpTo(d, step, k) == Ok(s.cats)
      && (k == 0 <==> s.out.None?)
      && (k > 0 ==> orient(s.cats) == Ok(s.out.value))
  {
  }

  lemma {:induction false} ScanFails(d: Categories, step: Step, orient: Orient, k: nat)
    requires 0 < k <= |d| && ScanUpTo(d, step, orient, k).Err?
    ensures ScanUpTo(d, step, orient, |d|) == ScanUpTo(d, step, orient, k)
    decreases |d| - k
  {
    if k < |d| {
      var m: nat := k + 1;
      ScanFails(d, step, orient, m);
    }
  }

  function TssOrient(metaFields: seq<string>): Orient {
    (cats: Categories) => Reorient(cats, metaFields, "stats", "team_id")
  }

  /** `clean_team_season_stats`: threshold 5, every category cleaned and the dict
      reoriented after each; the result is the last reorientation, which is unbound
      when there are no categories. */
  function CleanTeamSeasonStats(d: Categories, cm: ColumnMap): Result<Value> {
    var cmap := GetAdvOrNadvCmap(|d|, 5, cm);
    match ScanUpTo(d, CleanStep(cmap, false), TssOrient(cm.metaData), |d|)
    case Err(e) => Err(e)
    case Ok(s) => if s.out.None? then Err(UnboundLocalError) else Ok(s.out.value)
  }

  /** With no categories the result is unbound. */
  lemma CleanTeamSeasonStatsEmpty(cm: ColumnMap)
    ensures CleanTeamSeasonStats([], cm) == Err(UnboundLocalError)
  {
  }

  /** A successful clean is the reorientation of the fully cleaned categories: one
      record per `stats.team_id` entry, each with a stats sub-map for every category. */
  lemma CleanTeamSeasonStatsIsReorient(d: Categories, cm: ColumnMap)
    requires CleanTeamSeasonStats(d, cm).Ok?
    ensures |d| > 0
    ensures var cmap := GetAdvOrNadvCmap(|d|, 5, cm);
      && CleanAll(d, cmap, false).Ok?
      && Ok(CleanTeamSeasonStats(d, cm).value) == Reorient(CleanAll(d, cmap, false).value, cm.metaData, "stats", "team_id")
  {
    var cmap := GetAdvOrNadvCmap(|d|, 5, cm);
    ScanUpToState(d, CleanStep(cmap, false), TssOrient(cm.metaData), |d|);
  }

  /** The loop of `clean_team_season_stats`. */
  method CleanTeamSeasonStatsLoop(d: Categories, cm: ColumnMap) returns (r: Result<Value>)
    ensures r == CleanTeamSeasonStats(d, cm)
  {
    var cmap := GetAdvOrNadvCmap(|d|, 5, cm);
    var cur := d;
    var clean: Option<Value> := None;
    var k := 0;
    while k < |d|
      invariant 0 <= k <= |d|
      invariant ScanUpTo(d, CleanStep(cmap, false), TssOrient(cm.metaData), k) == Ok(ScanState(cur, clean))
    {
      var key := d[k].0;
      TssAt(d, cmap, cm.metaData, k, cur, clean);
      var sub := Get(cur, key).value;
      var c := CleanOneCategory(key, sub, cmap, false);
      if c.Err? {
        return Err(c.error);
      }
      cur := SetItem(cur, key, c.value);
      var o := ReorientStats(cur, cm.metaData, "stats", "team_id");
      if o.Err? {
        return Err(o.error);
      }
      clean := Some(o.value);
      k := k + 1;
    }
    if clean.None? {
      return Err(UnboundLocalError);
    }
    return Ok(clean.value);
  }

  /** The state after iteration `k` in terms of the state before it. */
  lemma ScanNext(d: Categories, step: Step, orient: Orient, k: nat, cur: Categories, clean: Option<Value>)
    requires k < |d| && ScanUpTo(d, step, orient, k) == Ok(ScanState(cur, clean))
    ensures Get(cur, d[k].0) == Some(d[k].1)
    ensures var c := step(d[k].0, d[k].1);
      && (c.Err? ==> ScanUpTo(d, step, orient, k + 1) == Err(c.error))
      && (c.Ok? ==>
            var cats := SetItem(cur, d[k].0, c.value);
            ScanUpTo(d, step, orient, k + 1)
              == if orient(cats).Err? then Err(orient(cats).error) else Ok(ScanState(cats, Some(orient(cats).value))))
  {
    ScanUpToState(d, step, orient, k);
    UpdateStep(d, step, k, cur);
  }

  /** One iteration of the loop, in terms of the category it cleans and the
      reorientation it computes. */
  lemma TssAt(d: Categories, cmap: Dict<CategoryMap>, metaFields: seq<string>, k: nat, cur: Categories, clean: Option<Value>)
    requires k < |d| && ScanUpTo(d, CleanStep(cmap, false), TssOrient(metaFields), k) == Ok(ScanState(cur, clean))
    ensures Get(cur, d[k].0) == Some(d[k].1)
    ensures var c := CleanCategory(d[k].1, d[k].0, cmap, false);
      && (c.Err? ==> ScanUpTo(d, CleanStep(cmap, false), TssOrient(metaFields), |d|) == Err(c.error))
      && (c.Ok? ==>
            var cats := SetItem(cur, d[k].0, c.value);
            var o := Reorient(cats, metaFields, "stats", "team_id");
            && (o.Err? ==> ScanUpTo(d, CleanStep(cmap, false), TssOrient(metaFields), |d|) == Err(o.error))
            && (o.Ok? ==> ScanUpTo(d, CleanStep(cmap, false), TssOrient(metaFields), k + 1) == Ok(ScanState(cats, Some(o.value)))))
  {
    var step := CleanStep(cmap, false);
    var orient := TssOrient(metaFields);
    ScanNext(d, step, orient, k, cur, clean);
    if ScanUpTo(d, step, orient, k + 1).Err? {
      ScanFails(d, step, orient, k + 1);
    }
    var c := CleanCategory(d[k].1, d[k].0, cmap, false);
    assert step(d[k].0, d[k].1) == c;
    if c.Ok? {
      var cats := SetItem(cur, d[k].0, c.value);
      assert orient(cats) == Reorient(cats, metaFields, "stats", "team_id");
    }
  }
}
