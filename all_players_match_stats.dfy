/** The all-players-in-a-match scraper: for both teams of one match, one record per
    outfield player and one flat record per goalkeeper. */
module AllPlayersMatchStats {
  import opened Wrappers
  import opened Dicts
  import opened Values
  import opened FbrefScraper
  import opened StatsScraper
  import opened StatCategories
  import opened Reassembly

  /** The keys a team's later outfield tables get, by how many tables it already has. */
  const AdvStatIds: seq<string> := ["summary", "passing", "passing_types", "defense", "possession", "misc"]

  /** A team's entry while the match page's tables are attributed: 'home' or 'away', and
      its tables by stat id. */
  datatype TeamTables = TeamTables(homeAway: string, statTables: Dict<Table>)

  /** The same entry once its tables are parsed. */
  datatype TeamStats = TeamStats(homeAway: string, stats: Categories)

  // ---------------------------------------------------------------- attribution

  /** The stat id a team's next table gets: 'keeper' for a goalkeeper caption, 'summary'
      for its first table, otherwise the id at its current table count (IndexError
      past the sixth). */
  function NextStatId(statTables: Dict<Table>, keeperCaption: bool): (r: Result<string>)
    ensures keeperCaption ==> r == Ok("keeper")
    ensures !keeperCaption && |statTables| < 6 ==> r == Ok(AdvStatIds[|statTables|])
    ensures !keeperCaption && |statTables| >= 6 ==> r == Err(IndexError)
  {
    if keeperCaption then Ok("keeper")
    else if |statTables| == 0 then Ok("summary")
    else if |statTables| < 6 then Ok(AdvStatIds[|statTables|])
    else Err(IndexError)
  }

  /** One iteration of `get_home_away_player_stat_tables`. `teamNames` stands for
      `re.findall(r"(.*)\s(?:Player|Goalkeeper)\sStats\sTable", caption)` and
      `isKeeper` for a match of `r"Goalkeeper\sStats\sTable"`. The first team seen is
      'home', a new name while one team is recorded is 'away', and a table of a third
      team raises KeyError. */
  function AddMatchTable(acc: Dict<TeamTables>, t: Table, teamNames: Finder, isKeeper: string -> bool)
    : Result<Dict<TeamTables>>
  {
    if t.caption.None? || |teamNames(t.caption.value)| == 0 then Ok(acc)
    else
      var caption := t.caption.value;
      var name := teamNames(caption)[0];
      var acc1 := WithTeam(acc, name);
      var team :- Lookup(acc1, name);
      var key :- NextStatId(team.statTables, isKeeper(caption));
      Ok(SetItem(acc1, name, team.(statTables := SetItem(team.statTables, key, t))))
  }

  /** The team entry opened for `name` when it is the first or the second team seen. */
  function WithTeam(acc: Dict<TeamTables>, name: string): Dict<TeamTables> {
    if |acc| == 0 then SetItem(acc, name, TeamTables("home", []))
    else if !Has(acc, name) && |acc| == 1 then SetItem(acc, name, TeamTables("away", []))
    else acc
  }

  /** The first `k` iterations. */
  function HomeAwayUpTo(tables: seq<Table>, teamNames: Finder, isKeeper: string -> bool, k: nat)
    : Result<Dict<TeamTables>>
    requires k <= |tables|
  {
    if k == 0 then Ok([])
    else
      match HomeAwayUpTo(tables, teamNames, isKeeper, k - 1)
      case Err(e) => Err(e)
      case Ok(acc) => AddMatchTable(acc, tables[k - 1], teamNames, isKeeper)
  }

  /** `get_home_away_player_stat_tables` */
  function GetHomeAwayPlayerStatTables(tables: seq<Table>, teamNames: Finder, isKeeper: string -> bool)
    : Result<Dict<TeamTables>>
  {
    HomeAwayUpTo(tables, teamNames, isKeeper, |tables|)
  }

  /** The shape every stage of the attribution keeps: at most two teams, the first
      'home' and the second 'away', each with at most seven tables whose stat ids are
      'keeper' or one of the six outfield ids. */
  predicate WellAttributed(acc: Dict<TeamTables>) {
    && |acc| <= 2
    && (|acc| >= 1 ==> acc[0].1.homeAway == "home")
    && (|acc| == 2 ==> acc[1].1.homeAway == "away")
    && forall j :: 0 <= j < |acc| ==>
         |acc[j].1.statTables| <= 7
         && forall key :: key in Keys(acc[j].1.statTables) ==> key == "keeper" || key in AdvStatIds
  }

  lemma AddMatchTableKeeps(acc: Dict<TeamTables>, t: Table, teamNames: Finder, isKeeper: string -> bool)
    requires WellAttributed(acc)
    requires AddMatchTable(acc, t, teamNames, isKeeper).Ok?
    ensures WellAttributed(AddMatchTable(acc, t, teamNames, isKeeper).value)
  {
    if t.caption.Some? && |teamNames(t.caption.value)| > 0 {
      var caption := t.caption.value;
      var name := teamNames(caption)[0];
      var acc1 := WithTeam(acc, name);
      WithTeamKeeps(acc, name);
      var i := Find(acc1, name);
      var team := acc1[i].1;
      var key := NextStatId(team.statTables, isKeeper(caption)).value;
      TeamGainsTable(team.statTables, key, t);
      var st := SetItem(team.statTables, key, t);
      SetTeamKeeps(acc1, i, team.(statTables := st));
    }
  }

  /** Opening a team entry keeps the attribution's shape. */
  lemma WithTeamKeeps(acc: Dict<TeamTables>, name: string)
    requires WellAttributed(acc)
    ensures WellAttributed(WithTeam(acc, name))
  {
  }

  /** Storing a table under 'keeper' or an outfield id keeps a team's tables in shape. */
  lemma TeamGainsTable(st: Dict<Table>, key: string, t: Table)
    requires key == "keeper" || key in AdvStatIds
    requires |st| <= 7 && forall k :: k in Keys(st) ==> k == "keeper" || k in AdvStatIds
    ensures var st' := SetItem(st, key, t);
      |st'| <= 7 && forall k :: k in Keys(st') ==> k == "keeper" || k in AdvStatIds
  {
    if !Has(st, key) {
      StatTablesGrow(st, key);
    }
  }

  /** Replacing a team's entry by one with the same side and tables in shape keeps the
      attribution's shape. */
  lemma SetTeamKeeps(acc: Dict<TeamTables>, i: nat, team: TeamTables)
    requires WellAttributed(acc) && i < |acc| && team.homeAway == acc[i].1.homeAway
    requires |team.statTables| <= 7
    requires forall k :: k in Keys(team.statTables) ==> k == "keeper" || k in AdvStatIds
    ensures WellAttributed(SetItem(acc, acc[i].0, team))
  {
    FindOfKey(acc, i);
    var r := SetItem(acc, acc[i].0, team);
    forall j | 0 <= j < |r|
      ensures |r[j].1.statTables| <= 7
      ensures forall key' :: key' in Keys(r[j].1.statTables) ==> key' == "keeper" || key' in AdvStatIds
    {
      if j != i {
        assert r[j] == acc[j];
      }
    }
  }

  /** A team gains a new key only while it has fewer than seven: with seven keys from
      the seven possible ids, every id is taken. */
  lemma StatTablesGrow(st: Dict<Table>, key: string)
    requires key == "keeper" || key in AdvStatIds
    requires !Has(st, key)
    requires forall k :: k in Keys(st) ==> k == "keeper" || k in AdvStatIds
    ensures |st| < 7
  {
    var all := ["keeper"] + AdvStatIds;
    var ks := Keys(st);
    assert forall k :: k in ks ==> k in all;
    assert key !in ks;
    UniqueKeysDistinct(st);
    DistinctSubsetBound(ks, all, key);
  }

  lemma UniqueKeysDistinct<V>(d: Dict<V>)
    ensures Lists.Distinct(Keys(d))
  {
  }

  /** Distinct elements drawn from `all` and missing one of its elements are fewer than
      `all`'s length. */
  lemma DistinctSubsetBound(ks: seq<string>, all: seq<string>, missing: string)
    requires Lists.Distinct(ks) && missing in all && missing !in ks
    requires forall k :: k in ks ==> k in all
    ensures |ks| < |all|
  {
    var s := set k | k in ks;
    var a := set k | k in all;
    DistinctCard(ks);
    SeqSetCard(all);
    assert missing in a;
    assert s <= a - {missing};
    SubsetCard(s, a - {missing});
  }

  lemma {:induction false} SubsetCard(s: set<string>, t: set<string>)
    requires s <= t
    ensures |s| <= |t|
    decreases |t|
  {
    if s != {} {
      var x :| x in s;
      SubsetCard(s - {x}, t - {x});
    }
  }

  lemma {:induction false} DistinctCard(ks: seq<string>)
    requires Lists.Distinct(ks)
    ensures |set k | k in ks| == |ks|
  {
    if |ks| > 0 {
      var p := ks[..|ks| - 1];
      DistinctCard(p);
      assert (set k | k in ks) == (set k | k in p) + {ks[|ks| - 1]};
      assert ks[|ks| - 1] !in p;
    }
  }

  lemma {:induction false} SeqSetCard(xs: seq<string>)
    ensures |set k | k in xs| <= |xs|
  {
    if |xs| > 0 {
      var p := xs[..|xs| - 1];
      SeqSetCard(p);
      assert (set k | k in xs) == (set k | k in p) + {xs[|xs| - 1]};
    }
  }

  /** The attribution always yields at most two teams, 'home' first and 'away' second,
      each with at most seven tables under 'keeper' or the outfield ids. */
  lemma {:induction false} HomeAwayWellAttributed(tables: seq<Table>, teamNames: Finder, isKeeper: string -> bool, k: nat)
    requires k <= |tables| && HomeAwayUpTo(tables, teamNames, isKeeper, k).Ok?
    ensures WellAttributed(HomeAwayUpTo(tables, teamNames, isKeeper, k).value)
  {
    if k > 0 {
      var m: nat := k - 1;
      HomeAwayWellAttributed(tables, teamNames, isKeeper, m);
      AddMatchTableKeeps(HomeAwayUpTo(tables, teamNames, isKeeper, m).value, tables[m], teamNames, isKeeper);
    }
  }

  /** A table captioned with a third team's name raises KeyError. */
  lemma ThirdTeamFails(acc: Dict<TeamTables>, t: Table, teamNames: Finder, isKeeper: string -> bool)
    requires |acc| == 2 && t.caption.Some? && |teamNames(t.caption.value)| > 0
    requires !Has(acc, teamNames(t.caption.value)[0])
    ensures AddMatchTable(acc, t, teamNames, isKeeper) == Err(KeyError)
  {
  }

  /** The loop of `get_home_away_player_stat_tables`. */
  method HomeAwayPlayerStatTables(tables: seq<Table>, teamNames: Finder, isKeeper: string -> bool)
    returns (r: Result<Dict<TeamTables>>)
    ensures r == GetHomeAwayPlayerStatTables(tables, teamNames, isKeeper)
  {
    var acc: Dict<TeamTables> := [];
    for i := 0 to |tables|
      invariant HomeAwayUpTo(tables, teamNames, isKeeper, i) == Ok(acc)
    {
      var next := AddMatchTable(acc, tables[i], teamNames, isKeeper);
      HomeAwayStep(tables, teamNames, isKeeper, i, acc);
      if next.Err? {
        return Err(next.error);
      }
      acc := next.value;
    }
    return Ok(acc);
  }

  /** One iteration of the loop: the next stage, or the final failure. */
  lemma HomeAwayStep(tables: seq<Table>, teamNames: Finder, isKeeper: string -> bool, i: nat, acc: Dict<TeamTables>)
    requires i < |tables| && HomeAwayUpTo(tables, teamNames, isKeeper, i) == Ok(acc)
    ensures AddMatchTable(acc, tables[i], teamNames, isKeeper).Ok? ==>
      HomeAwayUpTo(tables, teamNames, isKeeper, i + 1) == AddMatchTable(acc, tables[i], teamNames, isKeeper)
    ensures AddMatchTable(acc, tables[i], teamNames, isKeeper).Err? ==>
      GetHomeAwayPlayerStatTables(tables, teamNames, isKeeper) == AddMatchTable(acc, tables[i], teamNames, isKeeper)
  {
    if AddMatchTable(acc, tables[i], teamNames, isKeeper).Err? {
      HomeAwayFails(tables, teamNames, isKeeper, i + 1);
    }
  }

  lemma {:induction false} HomeAwayFails(tables: seq<Table>, teamNames: Finder, isKeeper: string -> bool, k: nat)
    requires 0 < k <= |tables| && HomeAwayUpTo(tables, teamNames, isKeeper, k).Err?
    ensures HomeAwayUpTo(tables, teamNames, isKeeper, |tables|) == HomeAwayUpTo(tables, teamNames, isKeeper, k)
    decreases |tables| - k
  {
    if k < |tables| {
      var m: nat := k + 1;
      HomeAwayFails(tables, teamNames, isKeeper, m);
    }
  }

  // ---------------------------------------------------------------- scraping

  /** The trailing rows each table loses: none for the keeper table, the totals row
      for every other. */
  function DropRowsFor(statId: string): int {
    if statId == "keeper" then 0 else 1
  }

  /** `scrape_all_players_match_stats` after the attribution: every table of every team
      replaced by its parsed category. */
  function ScrapeTeam(team: TeamTables): Result<TeamStats> {
    var stats :- MapValues(team.statTables,
      (key: string, t: Table) => StatDictOf(t, true, DropRowsFor(key), false, PlayerIdColumns()));
    Ok(TeamStats(team.homeAway, stats))
  }

  function ScrapeAllPlayersMatchStats(tables: seq<Table>, teamNames: Finder, isKeeper: string -> bool)
    : Result<Dict<TeamStats>>
  {
    var raw :- GetHomeAwayPlayerStatTables(tables, teamNames, isKeeper);
    MapValues(raw, (name: string, team: TeamTables) => ScrapeTeam(team))
  }

  /** Each team keeps its side and its stat ids, and each table is parsed without its
      pre-header row, keeping its last row only for the keeper table. */
  lemma ScrapeTeamShape(team: TeamTables)
    requires ScrapeTeam(team).Ok?
    ensures var r := ScrapeTeam(team).value;
      && r.homeAway == team.homeAway
      && Keys(r.stats) == Keys(team.statTables)
      && forall j :: 0 <= j < |team.statTables| ==>
           Ok(r.stats[j].1) == StatDictOf(team.statTables[j].1, true, if team.statTables[j].0 == "keeper" then 0 else 1,
                                          false, PlayerIdColumns())
  {
  }

  // ---------------------------------------------------------------- cleaning

  /** `clean_all_players_match_stats` before the reorientation: the column map is chosen
      from the first team's table count with threshold 2 (IndexError without teams),
      and every table of every team goes through the pipeline and then the column
      cleaners. */
  function CleanTeams(d: Dict<TeamStats>, cm: ColumnMap): Result<Dict<TeamStats>> {
    if |d| == 0 then Err(IndexError)
    else
      var cmap := GetAdvOrNadvCmap(|d[0].1.stats|, 2, cm);
      MapValues(d, TeamCleaner(cmap))
  }

  function CleanTeam(team: TeamStats, cmap: Dict<CategoryMap>): Result<TeamStats> {
    var c :- CleanAll(team.stats, cmap, true);
    Ok(TeamStats(team.homeAway, c))
  }

  function TeamCleaner(cmap: Dict<CategoryMap>): (string, TeamStats) -> Result<TeamStats> {
    (name: string, team: TeamStats) => CleanTeam(team, cmap)
  }

  /** `clean_all_players_match_stats` */
  function CleanAllPlayersMatchStats(d: Dict<TeamStats>, cm: ColumnMap): Result<Value> {
    var c :- CleanTeams(d, cm);
    ChangeApmsDictOrientation(c, cm.metaData)
  }

  /** Cleaning keeps the teams, their sides and their stat ids, and cleans every table
      with the pipeline first, under the map the first team's table count selects. */
  lemma CleanTeamsShape(d: Dict<TeamStats>, cm: ColumnMap)
    requires CleanTeams(d, cm).Ok?
    ensures |d| > 0
    ensures var cmap := GetAdvOrNadvCmap(|d[0].1.stats|, 2, cm);
      var r := CleanTeams(d, cm).value;
      && Keys(r) == Keys(d)
      && forall j :: 0 <= j < |d| ==>
           && r[j].1.homeAway == d[j].1.homeAway
           && Keys(r[j].1.stats) == Keys(d[j].1.stats)
           && CleanAll(d[j].1.stats, cmap, true) == Ok(r[j].1.stats)
  {
    var cmap := GetAdvOrNadvCmap(|d[0].1.stats|, 2, cm);
    var r := CleanTeams(d, cm).value;
    forall j | 0 <= j < |d|
      ensures Keys(r[j].1.stats) == Keys(d[j].1.stats)
    {
      CleanAllShape(d[j].1.stats, cmap, true);
    }
  }

  // ---------------------------------------------------------------- orientation

  /** One goalkeeper's flat record: every keeper column at row `j`, None when too short. */
  function KeeperRecord(keepers: Dict<Value>, j: nat): (r: Dict<Value>)
    ensures Keys(r) == Keys(keepers)
    ensures forall i :: 0 <= i < |keepers| ==> r[i].1 == IndexOrNull(keepers[i].1, j)
  {
    if |keepers| == 0 then []
    else
      var n := |keepers| - 1;
      var p := KeeperRecord(keepers[..n], j);
      assert Keys(p) + [keepers[n].0] == Keys(keepers);
      p + [(keepers[n].0, IndexOrNull(keepers[n].1, j))]
  }

  /** One team's entry of `change_apms_dict_orientation`: its name and side, one record
      per `summary.player_id` entry from every table but 'keeper' (which must exist),
      and one flat record per entry of the keeper table's `player_id`. */
  function TeamRecord(name: string, team: TeamStats, metaFields: seq<string>): Result<Value> {
    var popped :- Pop(team.stats, "keeper");
    var keepers := popped.0;
    var players := popped.1;
    var n :- RowCount(players, "summary", "player_id");
    var keeperIds :- Lookup(keepers, "player_id");
    var ids :- Iterate(keeperIds);
    Ok(TeamEntry(name, team.homeAway, Reassembly.Records(metaFields, false, players, n), KeeperRecords(keepers, |ids|)))
  }

  /** `{'team_name': …, 'home_away': …, 'players': […], 'keepers': […]}` */
  function TeamEntry(name: string, homeAway: string, players: seq<Value>, keepers: seq<Value>): Value {
    var d: Dict<Value> := [("team_name", Str(name)), ("home_away", Str(homeAway)), ("players", List(players)), ("keepers", List(keepers))];
    Map(d)
  }

  /** The flat records of keeper rows `0 .. n - 1`. */
  function KeeperRecords(keepers: Dict<Value>, n: nat): (r: seq<Value>)
    ensures |r| == n
    ensures forall j :: 0 <= j < n ==> r[j] == Map(KeeperRecord(keepers, j))
  {
    seq(n, j requires 0 <= j < n => Map(KeeperRecord(keepers, j)))
  }

  function TeamRecorder(metaFields: seq<string>): (string, TeamStats) -> Result<Value> {
    (name: string, team: TeamStats) => TeamRecord(name, team, metaFields)
  }

  /** `change_apms_dict_orientation`: one entry per team, in order. */
  function ChangeApmsDictOrientation(d: Dict<TeamStats>, metaFields: seq<string>): Result<Value> {
    var teams :- MapValues(d, TeamRecorder(metaFields));
    Ok(DataOf(ValuesOf(teams)))
  }


  /** A team's entry exists exactly when it has a keeper table holding `player_id`, and
      its outfield tables have a 'summary' with a sized `player_id`. It then has one
      player record per entry of `summary.player_id`, built from every table but the
      keeper one, and one keeper record per entry of the keeper `player_id` carrying
      every keeper column. */
  lemma TeamRecordShape(name: string, team: TeamStats, metaFields: seq<string>)
    ensures TeamRecord(name, team, metaFields).Ok? <==>
      && Has(team.stats, "keeper")
      && RowCount(Remove(team.stats, "keeper"), "summary", "player_id").Ok?
      && Has(Get(team.stats, "keeper").value, "player_id")
      && Iterate(Get(Get(team.stats, "keeper").value, "player_id").value).Ok?
    ensures TeamRecord(name, team, metaFields).Ok? ==>
      var keepers := Get(team.stats, "keeper").value;
      var players := Remove(team.stats, "keeper");
      var n := RowCount(players, "summary", "player_id").value;
      var ids := Iterate(Get(keepers, "player_id").value).value;
      && !Has(players, "keeper")
      && TeamRecord(name, team, metaFields).value ==
           TeamEntry(name, team.homeAway, Reassembly.Records(metaFields, false, players, n), KeeperRecords(keepers, |ids|))
  {
    if Has(team.stats, "keeper") {
      GetRemove(team.stats, "keeper", "keeper");
    }
  }

  /** The output has one entry per team, in the teams' order, and fails exactly when
      one team's entry does. */
  lemma ChangeApmsDictOrientationShape(d: Dict<TeamStats>, metaFields: seq<string>)
    ensures ChangeApmsDictOrientation(d, metaFields).Ok? <==>
      forall j :: 0 <= j < |d| ==> TeamRecord(d[j].0, d[j].1, metaFields).Ok?
    ensures ChangeApmsDictOrientation(d, metaFields).Ok? ==>
      exists entries: seq<Value> ::
        && |entries| == |d|
        && (forall j :: 0 <= j < |d| ==> TeamRecord(d[j].0, d[j].1, metaFields) == Ok(entries[j]))
        && ChangeApmsDictOrientation(d, metaFields).value == DataOf(entries)
  {
    var f := TeamRecorder(metaFields);
    var teams := MapValues(d, f);
    if teams.Ok? {
      var entries := ValuesOf(teams.value);
      assert forall j :: 0 <= j < |d| ==> f(d[j].0, d[j].1) == Ok(entries[j]);
    }
  }

  /** The outer loop of `change_apms_dict_orientation`: each team's entry appended in
      turn. */
  method ChangeApmsDictOrientationLoop(d: Dict<TeamStats>, metaFields: seq<string>) returns (r: Result<Value>)
    ensures r == ChangeApmsDictOrientation(d, metaFields)
  {
    ghost var f := TeamRecorder(metaFields);
    var teams: Dict<Value> := [];
    for i := 0 to |d|
      invariant MapValuesUpTo(d, f, i) == Ok(teams)
    {
      var entry := TeamRecordLoop(d[i].0, d[i].1, metaFields);
      MapValuesLoopStep(d, f, i, teams);
      if entry.Err? {
        return Err(entry.error);
      }
      teams := AddNew(teams, d[i].0, entry.value);
    }
    MapValuesLoopDone(d, f, teams);
    r := Ok(DataOf(ValuesOf(teams)));
  }

  /** The body of the outer loop: the keeper table popped, the player rows merged and
      the keeper rows copied one by one. */
  method TeamRecordLoop(name: string, team: TeamStats, metaFields: seq<string>) returns (r: Result<Value>)
    ensures r == TeamRecord(name, team, metaFields)
  {
    var popped :- Pop(team.stats, "keeper");
    var keepers := popped.0;
    var players := popped.1;
    var n :- RowCount(players, "summary", "player_id");
    var keeperIds :- Lookup(keepers, "player_id");
    var ids :- Iterate(keeperIds);
    var playerRecords := MergeRows(metaFields, false, players, n);
    var keeperRecords := KeeperRecordsLoop(keepers, |ids|);
    r := Ok(TeamEntry(name, team.homeAway, playerRecords, keeperRecords));
  }

  /** The keeper rows copied one by one. */
  method KeeperRecordsLoop(keepers: Dict<Value>, n: nat) returns (r: seq<Value>)
    ensures r == KeeperRecords(keepers, n)
  {
    r := [];
    for j := 0 to n
      invariant r == KeeperRecords(keepers, j)
    {
      r := r + [Map(KeeperRecord(keepers, j))];
    }
  }

  /** `clean_all_players_match_stats` as a loop over the teams, each team's tables
      cleaned by the shared cleaning loop. */
  method CleanAllPlayersMatchStatsLoop(d: Dict<TeamStats>, cm: ColumnMap) returns (r: Result<Value>)
    ensures r == CleanAllPlayersMatchStats(d, cm)
  {
    if |d| == 0 {
      return Err(IndexError);
    }
    var cmap := GetAdvOrNadvCmap(|d[0].1.stats|, 2, cm);
    var teams := CleanTeamsLoop(d, cmap);
    if teams.Err? {
      return Err(teams.error);
    }
    r := ChangeApmsDictOrientationLoop(teams.value, cm.metaData);
  }

  /** The loop over the teams: each team's tables cleaned in turn. */
  method CleanTeamsLoop(d: Dict<TeamStats>, cmap: Dict<CategoryMap>) returns (r: Result<Dict<TeamStats>>)
    ensures r == MapValues(d, TeamCleaner(cmap))
  {
    ghost var f := TeamCleaner(cmap);
    var teams: Dict<TeamStats> := [];
    for i := 0 to |d|
      invariant MapValuesUpTo(d, f, i) == Ok(teams)
    {
      var c := CleanCategories(d[i].1.stats, cmap, true);
      MapValuesLoopStep(d, f, i, teams);
      if c.Err? {
        return Err(c.error);
      }
      var team := TeamStats(d[i].1.homeAway, c.value);
      teams := AddNew(teams, d[i].0, team);
    }
    MapValuesLoopDone(d, f, teams);
    return Ok(teams);
  }

}
