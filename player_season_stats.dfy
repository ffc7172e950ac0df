/** The player-season stats scraper: one record per player of a team's season, with
    the goalkeeping categories reassembled separately from the outfield ones. */
module PlayerSeasonStats {
  import opened Wrappers
  import opened Dicts
  import opened Values
  import opened Text
  import opened Patterns
  import opened FbrefScraper
  import opened StatsScraper
  import opened StatCategories
  import opened Reassembly

  const AdvancedStatIds: seq<string> := [
    "stats", "keepers", "keepersadv", "shooting", "passing", "passing_types",
    "gca", "defense", "possession", "playingtime", "misc"]

  const BasicStatIds: seq<string> := ["stats", "keepers", "shooting", "playingtime", "misc"]

  /** The stat ids of `scrape_player_season_stats`: the advanced ids when more than 5
      tables matched a caption, the basic ids otherwise. */
  function GetStatIds(tableCount: nat): (r: seq<string>)
    ensures tableCount > 5 <==> r == AdvancedStatIds
    ensures tableCount <= 5 <==> r == BasicStatIds
  {
    if tableCount > 5 then AdvancedStatIds else BasicStatIds
  }

  lemma StatIdsDistinct(tableCount: nat)
    ensures Lists.Distinct(GetStatIds(tableCount))
  {
  }

  /** `scrape_player_season_stats` once the page's tables are selected by caption:
      `len(None)` raises TypeError when no table matched; otherwise table `i` is parsed
      without its pre-header and totals rows and stored under stat id `i`. */
  function ScrapePlayerSeasonStats(statTables: Option<seq<Table>>): Result<Categories> {
    if statTables.None? then Err(TypeError)
    else BindTables(statTables.value, GetStatIds(|statTables.value|), true, 0, true, PlayerIdColumns())
  }

  /** A successful scrape has no more tables than stat ids (so 6 to 11 tables, or up to
      5), and table `i` becomes the category of stat id `i`. */
  lemma ScrapePlayerSeasonStatsShape(tables: seq<Table>)
    requires ScrapePlayerSeasonStats(Some(tables)).Ok?
    ensures |tables| <= 11
    ensures var r := ScrapePlayerSeasonStats(Some(tables)).value;
      && Keys(r) == GetStatIds(|tables|)[..|tables|]
      && forall j :: 0 <= j < |tables| ==> Ok(r[j].1) == StatDictOf(tables[j], true, 0, true, PlayerIdColumns())
  {
    StatIdsDistinct(|tables|);
    BindTablesShape(tables, GetStatIds(|tables|), true, 0, true, PlayerIdColumns());
  }

  // ---------------------------------------------------------------- URL

  /** A Python value's truth: an absent or empty season and an absent or zero league
      are false. */
  predicate SeasonGiven(seasonId: Option<string>) {
    seasonId.Some? && |seasonId.value| > 0
  }

  predicate LeagueGiven(leagueId: Option<int>) {
    leagueId.Some? && leagueId.value != 0
  }

  /** `get_player_season_stats_url` */
  function GetPlayerSeasonStatsUrl(teamId: string, seasonId: Option<string>, leagueId: Option<int>): string {
    var base := "https://fbref.com/en/squads/" + teamId + "/";
    var withSeason := if SeasonGiven(seasonId) then base + seasonId.value + "/" else base;
    if LeagueGiven(leagueId) then withSeason + "c" + IntToString(leagueId.value) + "/"
    else withSeason + "all_comps/"
  }

  /** The URL is the team's squad page, followed by the season when one is given, and
      it ends in 'all_comps/' exactly when no league is given. */
  lemma PlayerSeasonStatsUrlParts(teamId: string, seasonId: Option<string>, leagueId: Option<int>)
    ensures var url := GetPlayerSeasonStatsUrl(teamId, seasonId, leagueId);
      && StartsWith(url, "https://fbref.com/en/squads/" + teamId + "/")
      && (var b := |"https://fbref.com/en/squads/" + teamId + "/"|;
          SeasonGiven(seasonId) ==> url[b..b + |seasonId.value| + 1] == seasonId.value + "/")
      && |url| >= 10 && (url[|url| - 10..] == "all_comps/" <==> !LeagueGiven(leagueId))
  {
    var url := GetPlayerSeasonStatsUrl(teamId, seasonId, leagueId);
    var base := "https://fbref.com/en/squads/" + teamId + "/";
    assert url[..|base|] == base;
    if SeasonGiven(seasonId) {
      assert url[|base|..|base| + |seasonId.value| + 1] == seasonId.value + "/";
    }
    if LeagueGiven(leagueId) {
      var digits := IntToString(leagueId.value);
      IntToStringEndsInDigit(leagueId.value);
      assert url[|url| - 2] == digits[|digits| - 1];
      assert url[|url| - 10..][8] == url[|url| - 2];
    } else {
      assert url[|url| - 10..] == "all_comps/";
    }
  }

  lemma IntToStringEndsInDigit(i: int)
    ensures |IntToString(i)| > 0 && IsDigit(IntToString(i)[|IntToString(i)| - 1])
  {
    var n: nat := if i < 0 then -i else i;
    var d := NatToString(n);
    assert IsDigits(d);
    assert IntToString(i)[|IntToString(i)| - 1] == d[|d| - 1];
  }

  // ---------------------------------------------------------------- orientation

  /** The two groups `change_pss_dict_orientation` iterates over: the categories
      without 'keepers' and 'keepersadv', and those two, in that order. 'keepers' must
      be present; 'keepersadv' may not be. */
  function PssGroups(d: Categories): (r: Result<(Categories, Categories)>)
    ensures r.Ok? <==> Has(d, "keepers")
    ensures r.Err? ==> r.error == KeyError
  {
    var popped :- Pop(d, "keepers");
    var rest := popped.1;
    if Has(rest, "keepersadv") then
      Ok((Remove(rest, "keepersadv"), Pair("keepers", popped.0, "keepersadv", Get(rest, "keepersadv").value)))
    else
      Ok((rest, [("keepers", popped.0)]))
  }

  /** One group's records: one per `player_id` entry of the group's first category,
      IndexError for an empty group. */
  function GroupRecords(group: Categories, metaFields: seq<string>): Result<seq<Value>> {
    if |group| == 0 then Err(IndexError)
    else
      var n :- RowCount(group, group[0].0, "player_id");
      Ok(Reassembly.Records(metaFields, true, group, n))
  }

  /** `change_pss_dict_orientation` */
  function ChangePssDictOrientation(d: Categories, metaFields: seq<string>): Result<Value> {
    var (players, keepers) :- PssGroups(d);
    var p :- GroupRecords(players, metaFields);
    var k :- GroupRecords(keepers, metaFields);
    Ok(PssOutput(p, k))
  }

  /** `{'players': players, 'keepers': keepers}` */
  function PssOutput(players: seq<Value>, keepers: seq<Value>): (r: Value)
    ensures r.Map? && Keys(r.m) == ["players", "keepers"]
    ensures r.m[0].1 == List(players) && r.m[1].1 == List(keepers)
  {
    Map(Pair("players", List(players), "keepers", List(keepers)))
  }

  /** The groups split the categories: keepers hold 'keepers' and 'keepersadv' when
      present, players hold every other category, with its columns. */
  lemma PssGroupsSplit(d: Categories, k: string)
    requires PssGroups(d).Ok?
    ensures var (players, keepers) := PssGroups(d).value;
      && Keys(keepers) == (if Has(d, "keepersadv") then ["keepers", "keepersadv"] else ["keepers"])
      && Get(keepers, k) == (if k == "keepers" || k == "keepersadv" then Get(d, k) else None)
      && Get(players, k) == (if k == "keepers" || k == "keepersadv" then None else Get(d, k))
  {
    var rest := Remove(d, "keepers");
    GetRemove(d, "keepers", k);
    GetRemove(d, "keepers", "keepersadv");
    GetRemove(rest, "keepersadv", k);
    if Has(rest, "keepersadv") {
      GetPair("keepers", Get(d, "keepers").value, "keepersadv", Get(rest, "keepersadv").value, k);
    }
  }

  /** The output holds exactly the two lists; each record's meta data is projected onto
      the meta fields, and each group has one record per `player_id` entry of its first
      category, with a stats sub-map per category of the group. */
  lemma ChangePssDictOrientationShape(d: Categories, metaFields: seq<string>)
    requires ChangePssDictOrientation(d, metaFields).Ok?
    ensures Has(d, "keepers")
    ensures var out := ChangePssDictOrientation(d, metaFields).value;
      var (players, keepers) := PssGroups(d).value;
      && |players| > 0
      && out.Map? && Keys(out.m) == ["players", "keepers"]
      && var n := Len(Get(players[0].1, "player_id").value).value;
         var m := Len(Get(keepers[0].1, "player_id").value).value;
         && out.m[0].1 == List(Reassembly.Records(metaFields, true, players, n))
         && out.m[1].1 == List(Reassembly.Records(metaFields, true, keepers, m))
  {
    var (players, keepers) := PssGroups(d).value;
    KeyAt(players, 0);
    KeyAt(keepers, 0);
  }

  /** The reorientation's loops. */
  method ChangePssDictOrientationLoop(d: Categories, metaFields: seq<string>) returns (r: Result<Value>)
    ensures r == ChangePssDictOrientation(d, metaFields)
  {
    var groups := SplitGroups(d);
    if groups.Err? {
      return Err(groups.error);
    }
    var p := GroupRecordsLoop(groups.value.0, metaFields);
    if p.Err? {
      return Err(p.error);
    }
    var k := GroupRecordsLoop(groups.value.1, metaFields);
    if k.Err? {
      return Err(k.error);
    }
    return Ok(PssOutput(p.value, k.value));
  }

  /** The pops that form the two groups. */
  method SplitGroups(d: Categories) returns (r: Result<(Categories, Categories)>)
    ensures r == PssGroups(d)
  {
    var popped := Pop(d, "keepers");
    if popped.Err? {
      return Err(popped.error);
    }
    var rest := popped.value.1;
    if Has(rest, "keepersadv") {
      var adv := Pop(rest, "keepersadv");
      return Ok((adv.value.1, Pair("keepers", popped.value.0, "keepersadv", adv.value.0)));
    }
    return Ok((rest, [("keepers", popped.value.0)]));
  }

  /** The body of the loop over the two groups. */
  method GroupRecordsLoop(group: Categories, metaFields: seq<string>) returns (r: Result<seq<Value>>)
    ensures r == GroupRecords(group, metaFields)
  {
    if |group| == 0 {
      return Err(IndexError);
    }
    var n := RowCount(group, group[0].0, "player_id");
    if n.Err? {
      return Err(n.error);
    }
    var records := MergeRows(metaFields, true, group, n.value);
    return Ok(records);
  }

  // ---------------------------------------------------------------- cleaning

  /** `clean_player_season_stats`: threshold 5, every category cleaned in place, then
      the reorientation. */
  function CleanPlayerSeasonStats(d: Categories, cm: ColumnMap): Result<Value> {
    var c :- CleanAll(d, GetAdvOrNadvCmap(|d|, 5, cm), false);
    ChangePssDictOrientation(c, cm.metaData)
  }

  method CleanPlayerSeasonStatsLoop(d: Categories, cm: ColumnMap) returns (r: Result<Value>)
    ensures r == CleanPlayerSeasonStats(d, cm)
  {
    var c := CleanCategories(d, GetAdvOrNadvCmap(|d|, 5, cm), false);
    if c.Err? {
      return Err(c.error);
    }
    r := ChangePssDictOrientationLoop(c.value, cm.metaData);
  }

  /** Cleaning keeps the stat ids, so the clean fails with KeyError unless the scraped
      dict has 'keepers' or a category fails to clean. */
  lemma CleanPlayerSeasonStatsNeedsKeepers(d: Categories, cm: ColumnMap)
    requires !Has(d, "keepers")
    ensures CleanPlayerSeasonStats(d, cm).Err?
    ensures CleanAll(d, GetAdvOrNadvCmap(|d|, 5, cm), false).Ok? ==> CleanPlayerSeasonStats(d, cm) == Err(KeyError)
  {
    var cmap := GetAdvOrNadvCmap(|d|, 5, cm);
    CleanAllShape(d, cmap, false);
    if CleanAll(d, cmap, false).Ok? {
      var c := CleanAll(d, cmap, false).value;
      assert !Has(c, "keepers");
    }
  }
}
