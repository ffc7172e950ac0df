/** The league-seasons scraper: the seasons table of one league's history page, with
    the top scorer column split into players and goals, the team names cleaned, the
    season column renamed to 'season_id' and one record per season. */
module LeagueSeasons {
  import opened Wrappers
  import opened Dicts
  import opened Values
  import opened FbrefScraper
  import opened StatsScraper
  import opened LeagueStandings

  /** `reorder_ls_dict_keys`' order. */
  const SeasonsOrder: seq<string> :=
    ["season_id", "competition_name", "host_country", "#_squads", "champion", "runner-up", "top_scorer"]

  /** `convert_ls_dict_dtypes`' integer columns (it has no float columns). */
  const IntKeys: seq<string> := ["#_squads"]

  /** The team-name columns and the season columns `clean_league_seasons` visits. */
  const TeamKeys: seq<string> := ["champion", "runner-up"]
  const SeasonKeys: seq<string> := ["season", "year"]

  // ---------------------------------------------------------------- top scorer

  /** One cell of `clean_top_overall_scorer`: an empty cell gives player '' and no
      goals; any other cell is split like a standings top scorer, its goals kept as a
      number. A cell that is not text raises AttributeError. */
  function OverallScorer(x: Value): (r: Result<(Value, Value)>)
    ensures x == Str("") ==> r == Ok((Str(""), Null))
    ensures !x.Str? ==> r == Err(AttributeError)
    ensures r.Ok? && x != Str("") ==> r.value.1.Int?
  {
    if x == Str("") then Ok((Str(""), Null))
    else
      var s :- AsStr(x);
      var parsed :- ScorerParts(s);
      Ok((parsed.0, Int(parsed.1)))
  }

  /** "Messi-20" gives player "Messi" and 20 goals. */
  lemma OverallScorerOfName(name: string, goals: nat)
    requires '-' !in name && ',' !in name
    ensures OverallScorer(Str(name + "-" + Text.NatToString(goals))) == Ok((Str(name), Int(goals)))
  {
    ScorerPartsOfName(name, goals);
  }

  /** Tied scorers separated by a comma give the list of their names: "A,B-3" gives
      player ["A", "B"] and 3 goals. */
  lemma OverallScorerOfNames(a: string, b: string, goals: nat)
    requires '-' !in a && '-' !in b && ',' !in a && ',' !in b
    ensures OverallScorer(Str(a + "," + b + "-" + Text.NatToString(goals))) == Ok((List([Str(a), Str(b)]), Int(goals)))
  {
    ScorerPartsOfNames(a, b, goals);
  }

  /** The players of the parsed cells, in order. */
  function Players(pairs: seq<(Value, Value)>): (r: seq<Value>)
    ensures |r| == |pairs| && forall i :: 0 <= i < |pairs| ==> r[i] == pairs[i].0
  {
    if |pairs| == 0 then [] else Players(pairs[..|pairs| - 1]) + [pairs[|pairs| - 1].0]
  }

  /** The goals of the parsed cells, in order. */
  function Goals(pairs: seq<(Value, Value)>): (r: seq<Value>)
    ensures |r| == |pairs| && forall i :: 0 <= i < |pairs| ==> r[i] == pairs[i].1
  {
    if |pairs| == 0 then [] else Goals(pairs[..|pairs| - 1]) + [pairs[|pairs| - 1].1]
  }

  lemma PairsSnoc(pairs: seq<(Value, Value)>, p: (Value, Value))
    ensures Players(pairs + [p]) == Players(pairs) + [p.0]
    ensures Goals(pairs + [p]) == Goals(pairs) + [p.1]
  {
    assert (pairs + [p])[..|pairs|] == pairs;
  }

  /** The cleaned column: a dict of two lists parallel to the raw column. */
  function ScorerCell(pairs: seq<(Value, Value)>): Value {
    ScorerMap(Players(pairs), Goals(pairs))
  }

  function ScorerMap(players: seq<Value>, goals: seq<Value>): Value {
    Map([("player", List(players)), ("goals_scored", List(goals))])
  }

  /** The cleaned column parsed from the raw cells. */
  function ParseScorers(cells: seq<Value>): Result<Value> {
    var pairs :- MapAll(cells, OverallScorer);
    Ok(ScorerCell(pairs))
  }

  /** `clean_top_overall_scorer`: the 'top_scorer' column (KeyError when there is none)
      becomes `{'player': [...], 'goals_scored': [...]}`, moved to the end. */
  function CleanTopOverallScorer(d: Dict<Value>): Result<Dict<Value>> {
    var popped :- Pop(d, "top_scorer");
    var cells :- Iterate(popped.0);
    var cell :- ParseScorers(cells);
    Ok(SetItem(Remove(popped.1, "raw_top_scorer"), "top_scorer", cell))
  }

  /** The 'player' and 'goals_scored' lists have one entry per raw cell, entry `i`
      parsed from cell `i`; the column moves to the end, 'raw_top_scorer' is gone
      and every other column keeps its place. A cell that fails fails the call. */
  lemma CleanTopOverallScorerShape(d: Dict<Value>)
    requires Has(d, "top_scorer")
    ensures var raw := Get(d, "top_scorer").value;
      && (Iterate(raw).Err? ==> CleanTopOverallScorer(d) == Err(TypeError))
      && (Iterate(raw).Ok? ==>
            var cells := Iterate(raw).value;
            && (CleanTopOverallScorer(d).Ok? <==> forall i :: 0 <= i < |cells| ==> OverallScorer(cells[i]).Ok?)
            && (CleanTopOverallScorer(d).Ok? ==>
                  var rest := Remove(Remove(d, "top_scorer"), "raw_top_scorer");
                  var players := Players(MapAll(cells, OverallScorer).value);
                  var goals := Goals(MapAll(cells, OverallScorer).value);
                  && CleanTopOverallScorer(d).value == rest + [("top_scorer", ScorerMap(players, goals))]
                  && |players| == |cells| == |goals|
                  && forall i :: 0 <= i < |cells| ==> OverallScorer(cells[i]) == Ok((players[i], goals[i]))))
  {
    var raw := Get(d, "top_scorer").value;
    if Iterate(raw).Ok? {
      var cells := Iterate(raw).value;
      if MapAll(cells, OverallScorer).Ok? {
        CleanTopOverallScorerValue(d, cells, MapAll(cells, OverallScorer).value);
      }
    }
  }

  /** The cleaned dict when every cell parses: the other columns, then the new one. */
  lemma CleanTopOverallScorerValue(d: Dict<Value>, cells: seq<Value>, pairs: seq<(Value, Value)>)
    requires Has(d, "top_scorer") && Iterate(Get(d, "top_scorer").value) == Ok(cells)
    requires MapAll(cells, OverallScorer) == Ok(pairs)
    ensures CleanTopOverallScorer(d) ==
      Ok(Remove(Remove(d, "top_scorer"), "raw_top_scorer") + [("top_scorer", ScorerCell(pairs))])
  {
    var rest0 := Remove(d, "top_scorer");
    GetRemove(rest0, "raw_top_scorer", "top_scorer");
    GetRemove(d, "top_scorer", "top_scorer");
  }

  /** `clean_top_overall_scorer` step by step: the column parked under
      'raw_top_scorer', the two lists filled cell by cell, then 'raw_top_scorer'
      popped. */
  method CleanTopOverallScorerInPlace(d: Dict<Value>) returns (r: Result<Dict<Value>>)
    ensures r == CleanTopOverallScorer(d)
  {
    var popped :- Pop(d, "top_scorer");
    var rest := popped.1;
    var cur := SetItem(rest, "raw_top_scorer", popped.0);
    var cells :- Iterate(popped.0);
    var cell :- ParseScorersLoop(cells);
    GetRemove(d, "top_scorer", "top_scorer");
    GetSetItem(rest, "raw_top_scorer", popped.0, "top_scorer");
    GetRemove(rest, "raw_top_scorer", "top_scorer");
    RemoveAppend(cur, "raw_top_scorer", ("top_scorer", cell));
    RemoveSetItem(rest, "raw_top_scorer", popped.0);
    cur := SetItem(cur, "top_scorer", cell);
    cur := Remove(cur, "raw_top_scorer");
    return Ok(cur);
  }

  /** The loop of `clean_top_overall_scorer`, appending to the two lists. */
  method ParseScorersLoop(cells: seq<Value>) returns (r: Result<Value>)
    ensures r == ParseScorers(cells)
  {
    var players: seq<Value> := [];
    var goals: seq<Value> := [];
    ghost var pairs: seq<(Value, Value)> := [];
    for i := 0 to |cells|
      invariant MapAll(cells[..i], OverallScorer) == Ok(pairs)
      invariant players == Players(pairs) && goals == Goals(pairs)
    {
      var parsed := ParseScorer(cells[i]);
      if parsed.Err? {
        ParseScorersFails(cells, i);
        return Err(parsed.error);
      }
      MapAllSnoc(cells, OverallScorer, i, pairs, parsed.value);
      PairsSnoc(pairs, parsed.value);
      players := players + [parsed.value.0];
      goals := goals + [parsed.value.1];
      pairs := pairs + [parsed.value];
    }
    ParseScorersDone(cells, pairs);
    return Ok(ScorerMap(players, goals));
  }

  /** A cell that does not parse is the error of the whole column. */
  lemma ParseScorersFails(cells: seq<Value>, i: nat)
    requires i < |cells| && MapAll(cells[..i], OverallScorer).Ok? && OverallScorer(cells[i]).Err?
    ensures ParseScorers(cells) == Err(OverallScorer(cells[i]).error)
  {
    MapAllFirstError(cells, OverallScorer, i, |cells|);
    assert cells[..|cells|] == cells;
  }

  /** Every cell parsed: the column is the two lists of the pairs. */
  lemma ParseScorersDone(cells: seq<Value>, pairs: seq<(Value, Value)>)
    requires MapAll(cells[..|cells|], OverallScorer) == Ok(pairs)
    ensures ParseScorers(cells) == Ok(ScorerMap(Players(pairs), Goals(pairs)))
  {
    assert cells[..|cells|] == cells;
  }

  /** The body of the loop for one cell. */
  method ParseScorer(scorer: Value) returns (r: Result<(Value, Value)>)
    ensures r == OverallScorer(scorer)
  {
    if scorer == Str("") {
      return Ok((Str(""), Null));
    }
    var s :- AsStr(scorer);
    var parsed :- ScorerParts(s);
    return Ok((parsed.0, Int(parsed.1)));
  }

  // ---------------------------------------------------------------- columns

  /** `clean_top_overall_scorer` when there is a 'top_scorer' column. */
  function WithTopScorer(d: Dict<Value>): Result<Dict<Value>> {
    if Has(d, "top_scorer") then CleanTopOverallScorer(d) else Ok(d)
  }

  /** Only 'top_scorer' and 'raw_top_scorer' are touched by the top scorer step. */
  lemma GetWithTopScorer(d: Dict<Value>, k: string)
    requires WithTopScorer(d).Ok? && k != "top_scorer" && k != "raw_top_scorer"
    ensures Get(WithTopScorer(d).value, k) == Get(d, k)
  {
    if Has(d, "top_scorer") {
      var rest0 := Remove(d, "top_scorer");
      var rest := Remove(rest0, "raw_top_scorer");
      var cell := ParseScorers(Iterate(Get(d, "top_scorer").value).value).value;
      assert WithTopScorer(d).value == SetItem(rest, "top_scorer", cell);
      GetSetItem(rest, "top_scorer", cell, k);
      GetRemove(rest0, "raw_top_scorer", k);
      GetRemove(d, "top_scorer", k);
    }
  }

  /** `d[key] = [clean_team_name(x) for x in d[key]]` when `key` is present. */
  function CleanTeamColumn(d: Dict<Value>, key: string): Result<Dict<Value>> {
    if Has(d, key) then
      var cleaned :- CleanColumn(TeamName, Get(d, key).value);
      Ok(SetItem(d, key, cleaned))
    else Ok(d)
  }

  /** The team-name loop over `keys`. */
  function CleanTeamColumns(d: Dict<Value>, keys: seq<string>): Result<Dict<Value>> {
    if |keys| == 0 then Ok(d)
    else
      var prev :- CleanTeamColumns(d, keys[..|keys| - 1]);
      CleanTeamColumn(prev, keys[|keys| - 1])
  }

  /** A listed column that is present is cleaned, any other column is untouched. */
  lemma {:induction false} GetCleanTeamColumns(d: Dict<Value>, keys: seq<string>, k: string)
    requires CleanTeamColumns(d, keys).Ok?
    ensures var r := CleanTeamColumns(d, keys).value;
      && (k !in keys ==> Get(r, k) == Get(d, k))
      && (k in keys && Lists.Count(keys, k) == 1 ==>
            (Has(r, k) <==> Has(d, k))
            && (Has(d, k) ==> CleanColumn(TeamName, Get(d, k).value) == Ok(Get(r, k).value)))
  {
    if |keys| > 0 {
      var init := keys[..|keys| - 1];
      var last := keys[|keys| - 1];
      assert keys == init + [last];
      var prev := CleanTeamColumns(d, init).value;
      GetCleanTeamColumns(d, init, k);
      if Has(prev, last) {
        GetSetItem(prev, last, CleanColumn(TeamName, Get(prev, last).value).value, k);
      }
      CountSplit(init, last, k);
    }
  }

  lemma CountSplit(init: seq<string>, last: string, k: string)
    ensures Lists.Count(init + [last], k) == Lists.Count(init, k) + (if last == k then 1 else 0)
  {
    assert (init + [last])[..|init|] == init;
  }

  /** `d = rename_dict_key(d, key, 'season_id')` when `key` is present. */
  function RenameSeason(d: Dict<Value>, key: string): Dict<Value> {
    if Has(d, key) then RenameDictKey(d, key, "season_id").value else d
  }

  /** The renaming loop over `keys`. */
  function RenameSeasons(d: Dict<Value>, keys: seq<string>): Dict<Value> {
    if |keys| == 0 then d else RenameSeason(RenameSeasons(d, keys[..|keys| - 1]), keys[|keys| - 1])
  }

  /** A present `key` hands its column to 'season_id' and disappears; every other
      column is untouched. */
  lemma GetRenameSeason(d: Dict<Value>, key: string, k: string)
    requires key != "season_id"
    ensures Get(RenameSeason(d, key), k) ==
      if k == key then None
      else if k == "season_id" && Has(d, key) then Get(d, key)
      else Get(d, k)
  {
    if Has(d, key) {
      GetRenameDictKey(d, key, "season_id", k);
    }
  }

  /** `convert_ls_dict_dtypes` */
  function ConvertLsDictDtypes(d: Dict<Value>): Result<Dict<Value>> {
    ConvertedDtypes(d, IntKeys, [])
  }

  /** The column steps of `clean_league_seasons`, up to the projection onto the
      seasons order. */
  function SeasonColumns(d: Dict<Value>): Result<Dict<Value>> {
    var d1 :- WithTopScorer(d);
    var d2 :- CleanTeamColumns(Remove(d1, "final"), TeamKeys);
    var d3 :- ConvertLsDictDtypes(RenameSeasons(d2, SeasonKeys));
    Ok(Project(d3, SeasonsOrder))
  }

  /** `clean_league_seasons`: `{'data': records}` with one record per 'season_id'
      entry. */
  function CleanLeagueSeasons(d: Dict<Value>): Result<Dict<Value>> {
    var columns :- SeasonColumns(d);
    ChangeDictOrientation(columns, "season_id")
  }

  /** The column 'season_id' is taken from: 'year' wins over 'season', because it is
      renamed second. */
  function SeasonSource(d: Dict<Value>): string {
    if Has(d, "year") then "year" else if Has(d, "season") then "season" else "season_id"
  }

  /** The renamed columns before conversion: 'season' and 'year' are gone, 'season_id'
      comes from `SeasonSource`, and nothing else changes. */
  lemma GetRenameSeasons(d: Dict<Value>, k: string)
    ensures Get(RenameSeasons(d, SeasonKeys), k) ==
      if k == "season" || k == "year" then None
      else if k == "season_id" then Get(d, SeasonSource(d))
      else Get(d, k)
  {
    assert SeasonKeys[..1] == ["season"] && SeasonKeys[..1][..0] == [];
    var d1 := RenameSeason(d, "season");
    assert RenameSeasons(d, SeasonKeys[..1]) == RenameSeason(RenameSeasons(d, []), "season");
    assert RenameSeasons(d, SeasonKeys) == RenameSeason(d1, "year");
    GetRenameSeason(d1, "year", k);
    GetRenameSeason(d, "season", k);
    GetRenameSeason(d, "season", "year");
  }

  /** The stages of `SeasonColumns`, named. */
  lemma SeasonStages(d: Dict<Value>) returns (d1: Dict<Value>, d2: Dict<Value>, d3: Dict<Value>, d4: Dict<Value>)
    requires SeasonColumns(d).Ok?
    ensures WithTopScorer(d) == Ok(d1)
    ensures CleanTeamColumns(Remove(d1, "final"), TeamKeys) == Ok(d2)
    ensures d3 == RenameSeasons(d2, SeasonKeys)
    ensures ConvertLsDictDtypes(d3) == Ok(d4)
    ensures SeasonColumns(d) == Ok(Project(d4, SeasonsOrder))
  {
    d1 := WithTopScorer(d).value;
    d2 := CleanTeamColumns(Remove(d1, "final"), TeamKeys).value;
    d3 := RenameSeasons(d2, SeasonKeys);
    d4 := ConvertLsDictDtypes(d3).value;
  }

  /** The columns before the renaming: only 'final', 'top_scorer', 'raw_top_scorer'
      and the team-name columns change. */
  lemma GetTeamsCleaned(d: Dict<Value>, d1: Dict<Value>, d2: Dict<Value>, k: string)
    requires WithTopScorer(d) == Ok(d1) && CleanTeamColumns(Remove(d1, "final"), TeamKeys) == Ok(d2)
    requires k != "final" && k != "top_scorer" && k != "raw_top_scorer" && k !in TeamKeys
    ensures Get(d2, k) == Get(d, k)
  {
    GetWithTopScorer(d, k);
    GetTeamsStage(d1, d2, k);
  }

  /** Removing 'final' and cleaning the team names leave every other column. */
  lemma GetTeamsStage(d1: Dict<Value>, d2: Dict<Value>, k: string)
    requires CleanTeamColumns(Remove(d1, "final"), TeamKeys) == Ok(d2)
    requires k != "final" && k !in TeamKeys
    ensures Get(d2, k) == Get(d1, k)
  {
    GetRemove(d1, "final", k);
    GetCleanTeamColumns(Remove(d1, "final"), TeamKeys, k);
  }

  /** The last two stages for a column of the seasons order: converted by its key,
      then kept by the projection. */
  lemma GetConvertedProjected(d3: Dict<Value>, d4: Dict<Value>, k: string)
    requires ConvertLsDictDtypes(d3) == Ok(d4) && k in SeasonsOrder
    ensures Has(Project(d4, SeasonsOrder), k) <==> Has(d3, k)
    ensures Has(d3, k) ==>
      Ok(Get(Project(d4, SeasonsOrder), k).value) ==
        if k in IntKeys then ConvertListFromStr(Get(d3, k).value, "int") else Ok(Get(d3, k).value)
    ensures k !in IntKeys ==> Get(Project(d4, SeasonsOrder), k) == Get(d3, k)
  {
    GetProject(d4, SeasonsOrder, k);
    if Has(d3, k) {
      GetConvertedDtypes(d3, IntKeys, [], k);
    } else {
      assert Keys(d4) == Keys(d3);
    }
  }

  /** 'season_id' holds the 'year' column, else the 'season' column, else the input's
      own 'season_id' column; there is no record without a season column. */
  lemma SeasonColumnsSeasonId(d: Dict<Value>)
    requires SeasonColumns(d).Ok?
    ensures Get(SeasonColumns(d).value, "season_id") == Get(d, SeasonSource(d))
  {
    var d1, d2, d3, d4 := SeasonStages(d);
    SeasonSourceKept(d, d1, d2);
    GetRenameSeasons(d2, "season_id");
    GetConvertedProjected(d3, d4, "season_id");
  }

  /** The season columns reach the renaming unchanged. */
  lemma SeasonSourceKept(d: Dict<Value>, d1: Dict<Value>, d2: Dict<Value>)
    requires WithTopScorer(d) == Ok(d1) && CleanTeamColumns(Remove(d1, "final"), TeamKeys) == Ok(d2)
    ensures SeasonSource(d2) == SeasonSource(d)
    ensures Get(d2, SeasonSource(d2)) == Get(d, SeasonSource(d))
  {
    GetTeamsCleaned(d, d1, d2, "year");
    GetTeamsCleaned(d, d1, d2, "season");
    GetTeamsCleaned(d, d1, d2, "season_id");
  }

  /** 'champion' and 'runner-up' hold the input's columns with each team name
      cleaned, and are missing exactly when the input lacks them. */
  lemma SeasonColumnsTeams(d: Dict<Value>, key: string)
    requires SeasonColumns(d).Ok? && key in TeamKeys
    ensures var out := SeasonColumns(d).value;
      && (Has(out, key) <==> Has(d, key))
      && (Has(d, key) ==> CleanColumn(TeamName, Get(d, key).value) == Ok(Get(out, key).value))
  {
    var d1, d2, d3, d4 := SeasonStages(d);
    GetWithTopScorer(d, key);
    GetRemove(d1, "final", key);
    assert Lists.Count(TeamKeys, key) == 1;
    GetCleanTeamColumns(Remove(d1, "final"), TeamKeys, key);
    GetRenameSeasons(d2, key);
    GetConvertedProjected(d3, d4, key);
  }

  /** '#_squads' is converted to integers (None for an empty cell); 'competition_name'
      and 'host_country' are copied. */
  lemma SeasonColumnsConverted(d: Dict<Value>, key: string)
    requires SeasonColumns(d).Ok?
    requires key == "#_squads" || key == "competition_name" || key == "host_country"
    ensures var out := SeasonColumns(d).value;
      && (Has(out, key) <==> Has(d, key))
      && (Has(d, key) ==>
            Ok(Get(out, key).value) == if key in IntKeys then ConvertListFromStr(Get(d, key).value, "int") else Ok(Get(d, key).value))
  {
    var d1, d2, d3, d4 := SeasonStages(d);
    GetTeamsCleaned(d, d1, d2, key);
    GetRenameSeasons(d2, key);
    GetConvertedProjected(d3, d4, key);
  }

  /** 'top_scorer' holds the parsed players and goals, parallel to the raw column. */
  lemma SeasonColumnsTopScorer(d: Dict<Value>)
    requires SeasonColumns(d).Ok? && Has(d, "top_scorer")
    ensures Iterate(Get(d, "top_scorer").value).Ok?
    ensures var cells := Iterate(Get(d, "top_scorer").value).value;
      && MapAll(cells, OverallScorer).Ok?
      && Get(SeasonColumns(d).value, "top_scorer") == Some(ScorerCell(MapAll(cells, OverallScorer).value))
  {
    var d1, d2, d3, d4 := SeasonStages(d);
    TopScorerStage(d, d1);
    LaterStagesKeep(d1, d2, d3, d4);
  }

  /** The later stages neither convert, rename nor clean 'top_scorer'. */
  lemma LaterStagesKeep(d1: Dict<Value>, d2: Dict<Value>, d3: Dict<Value>, d4: Dict<Value>)
    requires CleanTeamColumns(Remove(d1, "final"), TeamKeys) == Ok(d2)
    requires d3 == RenameSeasons(d2, SeasonKeys) && ConvertLsDictDtypes(d3) == Ok(d4)
    ensures Get(Project(d4, SeasonsOrder), "top_scorer") == Get(d1, "top_scorer")
  {
    GetTeamsStage(d1, d2, "top_scorer");
    GetRenameSeasons(d2, "top_scorer");
    GetConvertedProjected(d3, d4, "top_scorer");
  }

  /** The top scorer stage, when there is a top scorer column, leaves it parsed. */
  lemma TopScorerStage(d: Dict<Value>, d1: Dict<Value>)
    requires Has(d, "top_scorer") && WithTopScorer(d) == Ok(d1)
    ensures Iterate(Get(d, "top_scorer").value).Ok?
    ensures var cells := Iterate(Get(d, "top_scorer").value).value;
      && MapAll(cells, OverallScorer).Ok?
      && Get(d1, "top_scorer") == Some(ScorerCell(MapAll(cells, OverallScorer).value))
  {
    CleanTopOverallScorerShape(d);
    var cells := Iterate(Get(d, "top_scorer").value).value;
    var cell := ScorerCell(MapAll(cells, OverallScorer).value);
    var rest := Remove(Remove(d, "top_scorer"), "raw_top_scorer");
    GetSetItem(rest, "top_scorer", cell, "top_scorer");
  }

  /** The columns are a subsequence of the seasons order: 'final', 'season', 'year'
      and every unlisted column are gone. */
  lemma SeasonColumnsKeys(d: Dict<Value>)
    requires SeasonColumns(d).Ok?
    ensures Lists.IsSubseq(Keys(SeasonColumns(d).value), SeasonsOrder)
  {
    var d2 := CleanTeamColumns(Remove(WithTopScorer(d).value, "final"), TeamKeys).value;
    ProjectKeysSubseq(ConvertLsDictDtypes(RenameSeasons(d2, SeasonKeys)).value, SeasonsOrder);
  }

  // ---------------------------------------------------------------- the steps in place

  /** The team-name loop. */
  method CleanTeamColumnsLoop(d: Dict<Value>) returns (r: Result<Dict<Value>>)
    ensures r == CleanTeamColumns(d, TeamKeys)
  {
    var cur := d;
    for i := 0 to |TeamKeys|
      invariant CleanTeamColumns(d, TeamKeys[..i]) == Ok(cur)
    {
      var key := TeamKeys[i];
      assert TeamKeys[..i + 1][..i] == TeamKeys[..i];
      if Has(cur, key) {
        var cleaned := CleanColumn(TeamName, Get(cur, key).value);
        if cleaned.Err? {
          assert CleanTeamColumns(d, TeamKeys[..i + 1]).Err?;
          if i == 0 {
            assert TeamKeys[..2][..1] == TeamKeys[..1];
          }
          assert TeamKeys[..2] == TeamKeys;
          return Err(cleaned.error);
        }
        cur := SetItem(cur, key, cleaned.value);
      }
    }
    assert TeamKeys[..|TeamKeys|] == TeamKeys;
    return Ok(cur);
  }

  /** The renaming loop. */
  method RenameSeasonsLoop(d: Dict<Value>) returns (r: Dict<Value>)
    ensures r == RenameSeasons(d, SeasonKeys)
  {
    r := d;
    for i := 0 to |SeasonKeys|
      invariant r == RenameSeasons(d, SeasonKeys[..i])
    {
      var key := SeasonKeys[i];
      assert SeasonKeys[..i + 1][..i] == SeasonKeys[..i];
      if Has(r, key) {
        r := RenameDictKey(r, key, "season_id").value;
      }
    }
    assert SeasonKeys[..|SeasonKeys|] == SeasonKeys;
  }

  /** `clean_league_seasons` step by step. */
  method CleanLeagueSeasonsSteps(d: Dict<Value>) returns (r: Result<Dict<Value>>)
    ensures r == CleanLeagueSeasons(d)
  {
    var cur := d;
    if Has(cur, "top_scorer") {
      cur :- CleanTopOverallScorerInPlace(cur);
    }
    if Has(cur, "final") {
      cur := Remove(cur, "final");
    }
    cur :- CleanTeamColumnsLoop(cur);
    cur := RenameSeasonsLoop(cur);
    cur :- ConvertDictDtypes(cur, IntKeys, []);
    cur := Project(cur, SeasonsOrder);
    r := ChangeDictOrientationLoop(cur, "season_id");
  }
}
