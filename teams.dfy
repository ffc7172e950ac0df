/** The teams scraper: a team-season page gives a roster table and a schedule table.
    The roster keeps the players' meta-data with the age cut to years and one record
    per player, totals rows cut off the end; the schedule keeps one record per match
    date, with match and league ids padded for matches not yet played. */
module Teams {
  import opened Wrappers
  import opened Text
  import opened Lists
  import opened Dicts
  import opened Values
  import opened Patterns
  import opened FbrefScraper
  import opened StatsScraper

  /** `convert_teams_dict_dtypes`' integer columns (it has no float columns). */
  const IntKeys: seq<string> := ["age", "mp", "starts", "gf", "ga", "league_id"]

  /** The statistics the roster drops. */
  const RosterDeleteKeys: seq<string> :=
    ["min", "90s", "gls", "ast", "g+a", "g-pk", "pk", "pkatt", "crdy", "crdr", "xg", "npxg",
     "xag", "npxg+xag", "prgc", "prgp", "prgr", "g+a-pk", "xg+xag", "matches", "nation"]

  const RosterOrder: seq<string> :=
    ["player", "player_id", "nationality", "position", "age", "mp", "starts"]

  /** The columns the schedule drops. */
  const ScheduleDeleteKeys: seq<string> := ["xg", "xga", "poss", "match_report", "notes", "day"]

  const ScheduleOrder: seq<string> :=
    ["date", "time", "match_id", "league_name", "league_id", "rounds", "opponent", "opponent_id",
     "home_away", "result", "gf", "ga", "attendance", "captain", "formation", "referee"]

  /** The roster columns the cleaning sets or renames survive the deletion. */
  lemma RosterDeleteFacts()
    ensures "player_id" !in RosterDeleteKeys && "nationality" !in RosterDeleteKeys
    ensures "age" !in RosterDeleteKeys && "pos" !in RosterDeleteKeys && "position" !in RosterDeleteKeys
  {
    forall i | 0 <= i < |RosterDeleteKeys|
      ensures RosterDeleteKeys[i] != "player_id" && RosterDeleteKeys[i] != "nationality"
      ensures RosterDeleteKeys[i] != "age" && RosterDeleteKeys[i] != "pos" && RosterDeleteKeys[i] != "position"
    {
    }
  }

  lemma RosterNamesDiffer()
    ensures "player_id" != "nationality" && "player_id" != "age" && "nationality" != "age"
  {
  }

  lemma RosterOrderFacts()
    ensures "position" !in IntKeys && "age" in IntKeys
    ensures "player_id" in RosterOrder && "nationality" in RosterOrder
    ensures "position" in RosterOrder && "age" in RosterOrder
  {
  }

  /** The schedule columns the cleaning sets or renames survive the deletion. */
  lemma ScheduleDeleteFacts()
    ensures "home_away" !in ScheduleDeleteKeys && "league_name" !in ScheduleDeleteKeys
    ensures "match_id" !in ScheduleDeleteKeys && "league_id" !in ScheduleDeleteKeys
  {
  }

  lemma ScheduleOrderFacts()
    ensures "home_away" !in IntKeys && "league_name" !in IntKeys
    ensures "match_id" !in IntKeys && "league_id" in IntKeys
    ensures "home_away" in ScheduleOrder && "league_name" in ScheduleOrder
    ensures "match_id" in ScheduleOrder && "league_id" in ScheduleOrder
  {
  }

  // ---------------------------------------------------------------- dtypes

  /** `convert_teams_dict_dtypes`, as a specification: the integer columns converted,
      every other column copied, key order kept. */
  function TeamsDtypes(d: Dict<Value>): (r: Result<Dict<Value>>)
    ensures r.Ok? ==> Keys(r.value) == Keys(d)
    ensures r.Ok? ==> forall j :: 0 <= j < |d| ==>
      && (d[j].0 in IntKeys ==> ConvertListFromStr(d[j].1, "int") == Ok(r.value[j].1))
      && (d[j].0 !in IntKeys ==> r.value[j].1 == d[j].1)
    ensures r.Ok? <==> forall j :: 0 <= j < |d| ==> d[j].0 in IntKeys ==> ConvertListFromStr(d[j].1, "int").Ok?
  {
    ConvertedDtypes(d, IntKeys, [])
  }

  /** `convert_teams_dict_dtypes`: the loop over the keys. */
  method ConvertTeamsDictDtypes(d: Dict<Value>) returns (r: Result<Dict<Value>>)
    ensures r == TeamsDtypes(d)
  {
    r := ConvertDictDtypes(d, IntKeys, []);
  }

  // ---------------------------------------------------------------- age

  /** `re.findall(r"(^\d{2}).*", x)[0]` when there is a match, else None: the two
      leading digits of the age text, or None when it does not start with two. */
  function LeadingAge(x: Value): (r: Result<Value>)
    ensures r.Ok? <==> x.Str?
    ensures r.Ok? ==> (r.value != Null <==> |x.s| >= 2 && IsDigit(x.s[0]) && IsDigit(x.s[1]))
    ensures r.Ok? && r.value != Null ==> r.value.Str? && x.s == r.value.s + x.s[2..] && IsDigits(r.value.s)
  {
    if !x.Str? then Err(TypeError)
    else if |x.s| >= 2 && IsDigit(x.s[0]) && IsDigit(x.s[1]) then Ok(Str(x.s[..2]))
    else Ok(Null)
  }

  /** An age written as years and days ("23-118") gives back the years once cut and
      converted to an integer. */
  lemma LeadingAgeOfYears(years: nat, rest: string)
    requires 10 <= years < 100
    ensures LeadingAge(Str(NatToString(years) + rest)).Ok?
    ensures ToInt(LeadingAge(Str(NatToString(years) + rest)).value) == Ok(Int(years))
  {
    var digits := NatToString(years);
    assert |NatToString(years / 10)| == 1;
    assert |digits| == 2;
    var s := digits + rest;
    assert s[..2] == digits;
    assert IsDigit(s[0]) && IsDigit(s[1]);
    ParseIntOfNat(years);
  }

  // ---------------------------------------------------------------- roster

  /** The roster steps after parsing, given the parsed columns `d0` (header row
      skipped) and the player ids from the links: 'player_id' set, 'nationality'
      cleaned from 'nation' and the age cut to its leading digits. */
  function RosterParsed(d0: Dict<Value>, ids: seq<string>): Result<Dict<Value>> {
    var d1 := SetItem(d0, "player_id", List(Strs(ids)));
    var nation :- Lookup(d1, "nation");
    var nationality :- CleanColumn(TeamName, nation);
    var d2 := SetItem(d1, "nationality", nationality);
    var age :- Lookup(d2, "age");
    var ages :- MapOver(age, LeadingAge);
    Ok(SetItem(d2, "age", ages))
  }

  /** The three columns the parse steps set are present after them, and 'age' is
      the leading-digits column. */
  lemma RosterParsedKeys(d0: Dict<Value>, ids: seq<string>)
    requires RosterParsed(d0, ids).Ok?
    ensures var d := RosterParsed(d0, ids).value;
      && Has(d, "player_id") && Has(d, "nationality") && Has(d, "age") && Has(d0, "age")
      && Ok(Get(d, "age").value) == MapOver(Get(d0, "age").value, LeadingAge)
  {
    var d1 := SetItem(d0, "player_id", List(Strs(ids)));
    var nationality := CleanColumn(TeamName, Lookup(d1, "nation").value).value;
    var d2 := SetItem(d1, "nationality", nationality);
    var ages := MapOver(Lookup(d2, "age").value, LeadingAge).value;
    assert RosterParsed(d0, ids) == Ok(SetItem(d2, "age", ages));
    ThreeSets(d0, List(Strs(ids)), nationality, ages);
    var age := Lookup(d2, "age").value;
    assert Get(d0, "age") == Some(age);
    assert ages == MapOver(age, LeadingAge).value;
  }

  lemma ThreeSets(d0: Dict<Value>, x: Value, y: Value, z: Value)
    ensures var d2 := SetItem(SetItem(d0, "player_id", x), "nationality", y);
      var d3 := SetItem(d2, "age", z);
      && Get(d3, "player_id") == Some(x) && Get(d3, "nationality") == Some(y) && Get(d3, "age") == Some(z)
      && Get(d2, "age") == Get(d0, "age")
  {
    var d1 := SetItem(d0, "player_id", x);
    var d2 := SetItem(d1, "nationality", y);
    RosterNamesDiffer();
    GetSetItem(d0, "player_id", x, "age");
    GetSetItem(d1, "nationality", y, "age");
    GetSetItem(d2, "age", z, "age");
    GetSetItem(d2, "age", z, "player_id");
    GetSetItem(d2, "age", z, "nationality");
    GetSetItem(d1, "nationality", y, "player_id");
    GetSetItem(d1, "nationality", y, "nationality");
    GetSetItem(d0, "player_id", x, "player_id");
  }

  /** The statistics dropped and 'pos' renamed to 'position' (KeyError without it). */
  function RosterRenamed(d: Dict<Value>): Result<Dict<Value>> {
    RenameDictKey(DeleteAll(d, RosterDeleteKeys), "pos", "position")
  }

  /** The roster columns before the totals loop: parsed, renamed, converted and put in
      the roster order. */
  function RosterColumnsOf(d0: Dict<Value>, ids: seq<string>): (r: Result<Dict<Value>>)
    ensures r.Ok? ==>
      && RosterParsed(d0, ids).Ok? && RosterRenamed(RosterParsed(d0, ids).value).Ok?
      && TeamsDtypes(RosterRenamed(RosterParsed(d0, ids).value).value).Ok?
      && r.value == Project(TeamsDtypes(RosterRenamed(RosterParsed(d0, ids).value).value).value, RosterOrder)
  {
    var d :- RosterParsed(d0, ids);
    var renamed :- RosterRenamed(d);
    var converted :- TeamsDtypes(renamed);
    Ok(Project(converted, RosterOrder))
  }

  /** After the rename and the conversion, in the roster order: 'position' is the
      'pos' column unchanged, 'age' is converted to integers, and a column the
      parse steps set is kept. */
  lemma RosterStepsShape(d: Dict<Value>)
    requires RosterRenamed(d).Ok? && TeamsDtypes(RosterRenamed(d).value).Ok?
    requires Has(d, "player_id") && Has(d, "nationality") && Has(d, "age")
    ensures var r := Project(TeamsDtypes(RosterRenamed(d).value).value, RosterOrder);
      && IsSubseq(Keys(r), RosterOrder)
      && Has(r, "player_id") && Has(r, "nationality") && Has(r, "position") && Has(r, "age")
      && Get(r, "position") == Get(d, "pos")
      && Ok(Get(r, "age").value) == ConvertListFromStr(Get(d, "age").value, "int")
  {
    var deleted := DeleteAll(d, RosterDeleteKeys);
    var renamed := RosterRenamed(d).value;
    var converted := TeamsDtypes(renamed).value;
    RosterDeleteFacts();
    RosterOrderFacts();
    ProjectKeysSubseq(converted, RosterOrder);
    GetDeleteAll(d, RosterDeleteKeys, "pos");
    RosterKeptColumn(d, "player_id");
    RosterKeptColumn(d, "nationality");
    RosterKeptColumn(d, "age");
    GetRenameDictKey(deleted, "pos", "position", "position");
    GetConvertedDtypes(renamed, IntKeys, [], "position");
    GetProject(converted, RosterOrder, "position");
  }

  lemma RosterKeptColumn(d: Dict<Value>, k: string)
    requires RosterRenamed(d).Ok? && TeamsDtypes(RosterRenamed(d).value).Ok?
    requires Has(d, k) && k in RosterOrder && k !in RosterDeleteKeys && k != "pos" && k != "position"
    ensures var converted := TeamsDtypes(RosterRenamed(d).value).value;
      && Get(Project(converted, RosterOrder), k) == Get(converted, k)
      && Has(converted, k)
      && Ok(Get(converted, k).value) == (if k in IntKeys then ConvertListFromStr(Get(d, k).value, "int") else Ok(Get(d, k).value))
  {
    var deleted := DeleteAll(d, RosterDeleteKeys);
    var renamed := RosterRenamed(d).value;
    var converted := TeamsDtypes(renamed).value;
    GetDeleteAll(d, RosterDeleteKeys, k);
    GetRenameDictKey(deleted, "pos", "position", k);
    GetConvertedDtypes(renamed, IntKeys, [], k);
    GetProject(converted, RosterOrder, k);
  }

  /** The roster columns follow the roster order and always hold 'player_id',
      'nationality', 'position' and 'age'; 'position' is the table's 'pos' column
      unchanged and 'age' holds the two leading digits of each age text as an
      integer (None where there are none). */
  lemma RosterColumnsShape(d0: Dict<Value>, ids: seq<string>)
    requires RosterColumnsOf(d0, ids).Ok?
    ensures var r := RosterColumnsOf(d0, ids).value;
      && IsSubseq(Keys(r), RosterOrder)
      && Has(r, "player_id") && Has(r, "nationality") && Has(r, "position") && Has(r, "age")
      && Get(r, "position") == Get(RosterParsed(d0, ids).value, "pos")
      && Has(d0, "age") && MapOver(Get(d0, "age").value, LeadingAge).Ok?
      && Ok(Get(r, "age").value) == ConvertListFromStr(MapOver(Get(d0, "age").value, LeadingAge).value, "int")
  {
    RosterParsedKeys(d0, ids);
    RosterStepsShape(RosterParsed(d0, ids).value);
  }

  /** `clean_team_roster_table`'s column steps on a table. */
  function RosterColumns(t: Table): Result<Dict<Value>> {
    var d0 :- ParseTableData(t, true, 0, false);
    var ids :- ItemsOf(ParseTableRows(t), [UrlMatcher(PlayerId)]);
    RosterColumnsOf(d0, ids)
  }

  /** How many of the names contain "Total". */
  function CountTotals(players: seq<Value>): (n: nat)
    ensures n <= |players|
  {
    if |players| == 0 then 0
    else
      var last := players[|players| - 1];
      CountTotals(players[..|players| - 1]) + if In(Str("Total"), last) == Ok(true) then 1 else 0
  }

  /** The totals loop over the first `n` player names: a name containing "Total"
      appends a None to 'player_id' and is counted. */
  function MarkTotals(d: Dict<Value>, players: seq<Value>, n: nat): (r: Result<(Dict<Value>, nat)>)
    requires n <= |players|
  {
    if n == 0 then Ok((d, 0))
    else
      var p :- MarkTotals(d, players, n - 1);
      MarkOne(p, players[n - 1])
  }

  /** One round of the totals loop on the columns and the count so far. */
  function MarkOne(p: (Dict<Value>, nat), name: Value): Result<(Dict<Value>, nat)> {
    var isTotal :- In(Str("Total"), name);
    if isTotal then
      var ids :- Lookup(p.0, "player_id");
      var padded :- Append(ids, Null);
      Ok((SetItem(p.0, "player_id", padded), p.1 + 1))
    else Ok(p)
  }

  /** The columns `p.0` are `d` with 'player_id' padded by `p.1` Nones. */
  ghost predicate Marked(d: Dict<Value>, p: (Dict<Value>, nat)) {
    && Keys(p.0) == Keys(d)
    && (forall k :: k != "player_id" ==> Get(p.0, k) == Get(d, k))
    && (p.1 == 0 ==> p.0 == d)
    && (p.1 > 0 ==>
          && Has(d, "player_id") && Get(d, "player_id").value.List?
          && Get(p.0, "player_id") == Some(List(Get(d, "player_id").value.items + Nulls(p.1))))
  }

  /** The loop counts the totals names and pads 'player_id' with exactly that many
      Nones; every other column, and the key order, is left as it was. */
  lemma {:induction false} MarkTotalsPads(d: Dict<Value>, players: seq<Value>, n: nat)
    requires n <= |players| && MarkTotals(d, players, n).Ok?
    ensures var p := MarkTotals(d, players, n).value;
      p.1 == CountTotals(players[..n]) && Marked(d, p)
  {
    if n > 0 {
      var m: nat := n - 1;
      MarkTotalsPads(d, players, m);
      var p := MarkTotals(d, players, m).value;
      assert players[..n][..m] == players[..m];
      MarkOneStep(d, p, players[m]);
    }
  }

  /** One round keeps the padding in step with the count. */
  lemma MarkOneStep(d: Dict<Value>, p: (Dict<Value>, nat), name: Value)
    requires Marked(d, p) && MarkOne(p, name).Ok?
    ensures Marked(d, MarkOne(p, name).value)
    ensures MarkOne(p, name).value.1 == p.1 + if In(Str("Total"), name) == Ok(true) then 1 else 0
  {
    if In(Str("Total"), name) == Ok(true) {
      MarkOneTotal(p, name);
      MarkPad(d, p);
    }
  }

  /** A totals name appends a None to 'player_id' and counts one more. */
  lemma MarkOneTotal(p: (Dict<Value>, nat), name: Value)
    requires In(Str("Total"), name) == Ok(true) && MarkOne(p, name).Ok?
    ensures Has(p.0, "player_id") && Get(p.0, "player_id").value.List?
    ensures var ids := Get(p.0, "player_id").value;
      MarkOne(p, name) == Ok((SetItem(p.0, "player_id", List(ids.items + [Null])), p.1 + 1))
  {
  }

  /** A totals name pads once more. */
  lemma MarkPad(d: Dict<Value>, p: (Dict<Value>, nat))
    requires Marked(d, p) && Has(p.0, "player_id") && Get(p.0, "player_id").value.List?
    ensures var ids := Get(p.0, "player_id").value;
      Marked(d, (SetItem(p.0, "player_id", List(ids.items + [Null])), p.1 + 1))
  {
    var ids := Get(p.0, "player_id").value;
    PlayerIdOnly(p.0, List(ids.items + [Null]));
    MarkPadIds(d, p);
  }

  /** One more None on the padded 'player_id' column. */
  lemma MarkPadIds(d: Dict<Value>, p: (Dict<Value>, nat))
    requires Marked(d, p) && Has(p.0, "player_id") && Get(p.0, "player_id").value.List?
    ensures Has(d, "player_id") && Get(d, "player_id").value.List?
    ensures Get(p.0, "player_id").value.items + [Null] == Get(d, "player_id").value.items + Nulls(p.1 + 1)
  {
    if p.1 > 0 {
      NullsSnoc(Get(d, "player_id").value.items, p.1);
    } else {
      NullsOne(Get(d, "player_id").value.items);
    }
  }

  /** Setting 'player_id' of a dict that has it keeps the keys and every other
      column. */
  lemma PlayerIdOnly(c: Dict<Value>, v: Value)
    requires Has(c, "player_id")
    ensures Keys(SetItem(c, "player_id", v)) == Keys(c)
    ensures Get(SetItem(c, "player_id", v), "player_id") == Some(v)
    ensures forall k :: k != "player_id" ==> Get(SetItem(c, "player_id", v), k) == Get(c, k)
  {
    forall k ensures Get(SetItem(c, "player_id", v), k) == if k == "player_id" then Some(v) else Get(c, k) {
      GetSetItem(c, "player_id", v, k);
    }
  }

  /** The steps after the columns: the totals loop, one record per player, then
      `data[:-totals_rows]`. */
  function CleanRoster(d: Dict<Value>): (r: Result<Dict<Value>>)
    ensures r.Ok? ==> Keys(r.value) == ["data"] && r.value[0].1.List?
  {
    var players :- Lookup(d, "player");
    var names :- Iterate(players);
    var marked :- MarkTotals(d, names, |names|);
    var oriented :- ChangeDictOrientation(marked.0, "player");
    Ok(SetItem(oriented, "data", List(Slice(oriented[0].1.items, 0, -(marked.1 as int)))))
  }

  /** `clean_team_roster_table` as written. */
  function CleanTeamRosterTable(t: Table): Result<Dict<Value>> {
    var d :- RosterColumns(t);
    CleanRoster(d)
  }

  /** The player names of successful roster columns. */
  function Names(d: Dict<Value>): seq<Value>
    requires CleanRoster(d).Ok?
  {
    Iterate(Get(d, "player").value).value
  }

  /** The number of totals rows of successful roster columns. */
  function Totals(d: Dict<Value>): nat
    requires CleanRoster(d).Ok?
  {
    CountTotals(Names(d))
  }

  /** The records before the cut: one per player name, each the columns at its row
      (with 'player_id' padded). */
  function RosterRecords(d: Dict<Value>): (r: seq<Value>)
    requires CleanRoster(d).Ok?
    ensures |r| == |Names(d)| && Totals(d) <= |r|
    ensures var marked := MarkTotals(d, Names(d), |Names(d)|).value;
      Records(marked.0, |Names(d)|) == Ok(r)
  {
    var names := Names(d);
    var marked := MarkTotals(d, names, |names|).value;
    MarkTotalsPads(d, names, |names|);
    assert names[..|names|] == names;
    assert Get(marked.0, "player") == Get(d, "player");
    ChangeDictOrientation(marked.0, "player").value[0].1.items
  }

  lemma RosterData(d: Dict<Value>)
    requires CleanRoster(d).Ok?
    ensures CleanRoster(d).value == [("data", List(Slice(RosterRecords(d), 0, -(Totals(d) as int))))]
  {
    MarkedCount(d);
    var marked := MarkTotals(d, Names(d), |Names(d)|).value;
    var oriented := ChangeDictOrientation(marked.0, "player").value;
    DataOnly(oriented, List(Slice(oriented[0].1.items, 0, -(marked.1 as int))));
  }

  /** The count the totals loop returns is the number of totals names. */
  lemma MarkedCount(d: Dict<Value>)
    requires CleanRoster(d).Ok?
    ensures MarkTotals(d, Names(d), |Names(d)|).Ok? && MarkTotals(d, Names(d), |Names(d)|).value.1 == Totals(d)
  {
    var names := Names(d);
    MarkTotalsPads(d, names, |names|);
    assert names[..|names|] == names;
  }

  /** Assigning 'data' in a dict holding only 'data' replaces its value. */
  lemma DataOnly(o: Dict<Value>, v: Value)
    requires Keys(o) == ["data"]
    ensures SetItem(o, "data", v) == [("data", v)]
  {
    assert Keys(o)[0] == o[0].0;
  }

  /** With totals rows, every record is kept but that many from the end. */
  lemma CleanRosterDropsTotals(d: Dict<Value>)
    requires CleanRoster(d).Ok? && Totals(d) > 0
    ensures var recs := RosterRecords(d);
      CleanRoster(d).value == [("data", List(recs[..|recs| - Totals(d)]))]
  {
    RosterData(d);
    DropLastSlice(RosterRecords(d), Totals(d));
  }

  /** Without totals rows the roster comes out EMPTY: `data[:-0]` is `data[:0]`. */
  lemma CleanRosterWithoutTotals(d: Dict<Value>)
    requires CleanRoster(d).Ok? && Totals(d) == 0
    ensures CleanRoster(d).value == [("data", List([]))]
  {
    RosterData(d);
    DropLastSlice(RosterRecords(d), 0);
  }

  /** The steps after the columns with the cut written `data[:len(data) - totals_rows]`. */
  function CleanRosterFixed(d: Dict<Value>): (r: Result<Dict<Value>>)
    ensures r.Ok? ==> Keys(r.value) == ["data"] && r.value[0].1.List?
  {
    var players :- Lookup(d, "player");
    var names :- Iterate(players);
    var marked :- MarkTotals(d, names, |names|);
    var oriented :- ChangeDictOrientation(marked.0, "player");
    var recs := oriented[0].1.items;
    Ok(SetItem(oriented, "data", List(Slice(recs, 0, |recs| - marked.1))))
  }

  /** `clean_team_roster_table` with the corrected cut. */
  function CleanTeamRosterTableFixed(t: Table): Result<Dict<Value>> {
    var d :- RosterColumns(t);
    CleanRosterFixed(d)
  }

  /** The corrected cut succeeds exactly when the written one does and drops only the
      totals rows from the end: every record is kept when there are none. */
  lemma CleanRosterFixedKeepsPlayers(d: Dict<Value>)
    ensures CleanRosterFixed(d).Ok? <==> CleanRoster(d).Ok?
    ensures CleanRoster(d).Ok? ==>
      var recs := RosterRecords(d);
      && CleanRosterFixed(d).value == [("data", List(recs[..|recs| - Totals(d)]))]
      && (Totals(d) == 0 ==> CleanRosterFixed(d).value == [("data", List(recs))])
  {
    if CleanRoster(d).Ok? {
      RosterDataFixed(d);
      var recs := RosterRecords(d);
      assert Slice(recs, 0, |recs| - Totals(d)) == recs[..|recs| - Totals(d)];
      assert recs[..|recs| - 0] == recs;
    }
  }

  /** The corrected cut keeps the records up to the totals rows. */
  lemma RosterDataFixed(d: Dict<Value>)
    requires CleanRoster(d).Ok?
    ensures CleanRosterFixed(d).Ok?
    ensures var recs := RosterRecords(d);
      CleanRosterFixed(d).value == [("data", List(Slice(recs, 0, |recs| - Totals(d))))]
  {
    MarkedCount(d);
    var marked := MarkTotals(d, Names(d), |Names(d)|).value;
    var oriented := ChangeDictOrientation(marked.0, "player").value;
    var recs := oriented[0].1.items;
    DataOnly(oriented, List(Slice(recs, 0, |recs| - marked.1)));
  }

  // ---------------------------------------------------------------- schedule

  /** The schedule steps after parsing, given the parsed columns and the match,
      league and opponent ids from the links: ids set, opponent names and goals
      cleaned. */
  function ScheduleParsed(d0: Dict<Value>, matchIds: seq<string>, leagueIds: seq<string>, opponentIds: seq<string>)
    : Result<Dict<Value>>
  {
    var d1 := SetItem(d0, "match_id", List(Strs(matchIds)));
    var d2 := SetItem(d1, "league_id", List(Strs(leagueIds)));
    var d3 := SetItem(d2, "opponent_id", List(Strs(opponentIds)));
    var opponent :- Lookup(d3, "opponent");
    var opponents :- CleanColumn(TeamName, opponent);
    var d4 := SetItem(d3, "opponent", opponents);
    var gf :- Lookup(d4, "gf");
    var gfs :- CleanColumn(GoalsForAgainst, gf);
    var d5 := SetItem(d4, "gf", gfs);
    var ga :- Lookup(d5, "ga");
    var gas :- CleanColumn(GoalsForAgainst, ga);
    Ok(SetItem(d5, "ga", gas))
  }

  /** The id columns are lists after the parse steps. */
  lemma ScheduleParsedIds(d0: Dict<Value>, matchIds: seq<string>, leagueIds: seq<string>, opponentIds: seq<string>)
    requires ScheduleParsed(d0, matchIds, leagueIds, opponentIds).Ok?
    ensures var d := ScheduleParsed(d0, matchIds, leagueIds, opponentIds).value;
      Get(d, "match_id") == Some(List(Strs(matchIds))) && Get(d, "league_id") == Some(List(Strs(leagueIds)))
  {
    var d1 := SetItem(d0, "match_id", List(Strs(matchIds)));
    var d2 := SetItem(d1, "league_id", List(Strs(leagueIds)));
    var d3 := SetItem(d2, "opponent_id", List(Strs(opponentIds)));
    var d4 := SetItem(d3, "opponent", CleanColumn(TeamName, Lookup(d3, "opponent").value).value);
    var d5 := SetItem(d4, "gf", CleanColumn(GoalsForAgainst, Lookup(d4, "gf").value).value);
    var gas := CleanColumn(GoalsForAgainst, Lookup(d5, "ga").value).value;
    forall k | k == "match_id" || k == "league_id"
      ensures Get(SetItem(d5, "ga", gas), k) == Get(d2, k)
    {
      GetSetItem(d5, "ga", gas, k);
      GetSetItem(d4, "gf", Get(d5, "gf").value, k);
      GetSetItem(d3, "opponent", Get(d4, "opponent").value, k);
      GetSetItem(d2, "opponent_id", List(Strs(opponentIds)), k);
    }
    GetSetItem(d1, "league_id", List(Strs(leagueIds)), "match_id");
    GetSetItem(d1, "league_id", List(Strs(leagueIds)), "league_id");
    GetSetItem(d0, "match_id", List(Strs(matchIds)), "match_id");
  }

  /** 'venue' renamed to 'home_away' and 'comp' to 'league_name' (KeyError without
      either), then the unwanted columns dropped. */
  function ScheduleRenamed(d: Dict<Value>): Result<Dict<Value>> {
    var d1 :- RenameDictKey(d, "venue", "home_away");
    var d2 :- RenameDictKey(d1, "comp", "league_name");
    Ok(DeleteAll(d2, ScheduleDeleteKeys))
  }

  /** 'home_away' and 'league_name' hold the 'venue' and 'comp' columns. */
  lemma ScheduleRenamedColumns(d: Dict<Value>)
    requires ScheduleRenamed(d).Ok?
    ensures Get(ScheduleRenamed(d).value, "home_away") == Get(d, "venue")
    ensures Get(ScheduleRenamed(d).value, "league_name") == Get(d, "comp")
    ensures Has(d, "venue") && Has(d, "comp")
  {
    var d1 := RenameDictKey(d, "venue", "home_away").value;
    var d2 := RenameDictKey(d1, "comp", "league_name").value;
    ScheduleNamesDiffer();
    ScheduleDeleteFacts();
    GetRenameDictKey(d, "venue", "home_away", "comp");
    GetRenameDictKey(d, "venue", "home_away", "home_away");
    GetRenameDictKey(d1, "comp", "league_name", "home_away");
    GetRenameDictKey(d1, "comp", "league_name", "league_name");
    GetDeleteAll(d2, ScheduleDeleteKeys, "home_away");
    GetDeleteAll(d2, ScheduleDeleteKeys, "league_name");
  }

  /** Any other column kept by the deletion keeps its value through the renames. */
  lemma ScheduleRenamedKeeps(d: Dict<Value>, k: string)
    requires ScheduleRenamed(d).Ok?
    requires k !in ScheduleDeleteKeys && k != "venue" && k != "comp" && k != "home_away" && k != "league_name"
    ensures Get(ScheduleRenamed(d).value, k) == Get(d, k)
  {
    var d1 := RenameDictKey(d, "venue", "home_away").value;
    var d2 := RenameDictKey(d1, "comp", "league_name").value;
    GetRenameDictKey(d, "venue", "home_away", k);
    GetRenameDictKey(d1, "comp", "league_name", k);
    GetDeleteAll(d2, ScheduleDeleteKeys, k);
  }

  lemma ScheduleNamesDiffer()
    ensures "home_away" != "league_name" && "home_away" != "comp" && "comp" != "venue"
    ensures "match_id" != "venue" && "match_id" != "comp" && "match_id" != "home_away" && "match_id" != "league_name"
    ensures "league_id" != "venue" && "league_id" != "comp" && "league_id" != "home_away" && "league_id" != "league_name"
  {
  }

  /** A present column keeps, through the conversion and the projection onto an order
      that lists it, its value converted as `convert_teams_dict_dtypes` does. */
  lemma ConvertedProjected(d: Dict<Value>, k: string, order: seq<string>)
    requires TeamsDtypes(d).Ok? && Has(d, k) && k in order
    ensures var converted := TeamsDtypes(d).value;
      && Get(Project(converted, order), k) == Get(converted, k)
      && Has(converted, k)
      && Ok(Get(converted, k).value) == ConvertEntry(k, Get(d, k).value, IntKeys, [])
  {
    GetConvertedDtypes(d, IntKeys, [], k);
    GetProject(TeamsDtypes(d).value, order, k);
  }

  /** The schedule columns before the padding loop. */
  function ScheduleColumnsOf(d0: Dict<Value>, matchIds: seq<string>, leagueIds: seq<string>, opponentIds: seq<string>)
    : (r: Result<Dict<Value>>)
    ensures r.Ok? ==>
      && ScheduleParsed(d0, matchIds, leagueIds, opponentIds).Ok?
      && ScheduleRenamed(ScheduleParsed(d0, matchIds, leagueIds, opponentIds).value).Ok?
      && TeamsDtypes(ScheduleRenamed(ScheduleParsed(d0, matchIds, leagueIds, opponentIds).value).value).Ok?
      && r.value == Project(TeamsDtypes(ScheduleRenamed(ScheduleParsed(d0, matchIds, leagueIds, opponentIds).value).value).value, ScheduleOrder)
  {
    var d :- ScheduleParsed(d0, matchIds, leagueIds, opponentIds);
    var renamed :- ScheduleRenamed(d);
    var converted :- TeamsDtypes(renamed);
    Ok(Project(converted, ScheduleOrder))
  }

  /** After the renames and the conversion, in the schedule order: 'home_away' and
      'league_name' hold the 'venue' and 'comp' columns unchanged, and the id columns
      are lists. */
  lemma ScheduleStepsShape(d: Dict<Value>)
    requires ScheduleRenamed(d).Ok? && TeamsDtypes(ScheduleRenamed(d).value).Ok?
    requires Has(d, "match_id") && Has(d, "league_id") && Get(d, "match_id").value.List? && Get(d, "league_id").value.List?
    ensures var r := Project(TeamsDtypes(ScheduleRenamed(d).value).value, ScheduleOrder);
      && IsSubseq(Keys(r), ScheduleOrder)
      && Get(r, "home_away") == Get(d, "venue") && Get(r, "league_name") == Get(d, "comp")
      && Has(d, "venue") && Has(d, "comp")
      && Has(r, "match_id") && Has(r, "league_id") && Get(r, "match_id").value.List? && Get(r, "league_id").value.List?
  {
    var renamed := ScheduleRenamed(d).value;
    var converted := TeamsDtypes(renamed).value;
    ScheduleDeleteFacts();
    ScheduleOrderFacts();
    ScheduleNamesDiffer();
    ProjectKeysSubseq(converted, ScheduleOrder);
    ScheduleRenamedColumns(d);
    ScheduleRenamedKeeps(d, "match_id");
    ScheduleRenamedKeeps(d, "league_id");
    ConvertedProjected(renamed, "home_away", ScheduleOrder);
    ConvertedProjected(renamed, "league_name", ScheduleOrder);
    ConvertedProjected(renamed, "match_id", ScheduleOrder);
    ConvertedProjected(renamed, "league_id", ScheduleOrder);
  }

  /** The schedule columns follow the schedule order; 'home_away' and 'league_name'
      are the table's 'venue' and 'comp' columns unchanged. */
  lemma ScheduleColumnsShape(d0: Dict<Value>, matchIds: seq<string>, leagueIds: seq<string>, opponentIds: seq<string>)
    requires ScheduleColumnsOf(d0, matchIds, leagueIds, opponentIds).Ok?
    ensures var r := ScheduleColumnsOf(d0, matchIds, leagueIds, opponentIds).value;
      var d := ScheduleParsed(d0, matchIds, leagueIds, opponentIds).value;
      && IsSubseq(Keys(r), ScheduleOrder)
      && Get(r, "home_away") == Get(d, "venue") && Get(r, "league_name") == Get(d, "comp")
      && Has(r, "home_away") && Has(r, "league_name")
      && Has(r, "match_id") && Has(r, "league_id") && Get(r, "match_id").value.List? && Get(r, "league_id").value.List?
  {
    ScheduleParsedIds(d0, matchIds, leagueIds, opponentIds);
    ScheduleStepsShape(ScheduleParsed(d0, matchIds, leagueIds, opponentIds).value);
  }

  /** `clean_team_schedule_table`'s column steps on a table. */
  function ScheduleColumns(t: Table): Result<Dict<Value>> {
    var d0 :- ParseTableData(t, false, 0, false);
    var rows := ParseTableRows(t);
    var matchIds :- ItemsOf(rows, [UrlMatcher(MatchId)]);
    var leagueIds :- ItemsOf(rows, [UrlMatcher(CompId)]);
    var opponentIds :- ItemsOf(rows, [UrlMatcher(SquadId)]);
    ScheduleColumnsOf(d0, matchIds, leagueIds, opponentIds)
  }

  /** `n` rounds of the padding loop. */
  function PadMatchIds(d: Dict<Value>, n: nat): Result<Dict<Value>> {
    if n == 0 then Ok(d)
    else
      var p :- PadMatchIds(d, n - 1);
      PadOnce(p)
  }

  /** One round of the padding loop: a None appended to 'match_id' and then to
      'league_id'. */
  function PadOnce(p: Dict<Value>): Result<Dict<Value>> {
    var m :- Lookup(p, "match_id");
    var m' :- Append(m, Null);
    var p1 := SetItem(p, "match_id", m');
    var l :- Lookup(p1, "league_id");
    var l' :- Append(l, Null);
    Ok(SetItem(p1, "league_id", l'))
  }

  /** `p` is `d` with both id columns, lists in `d`, extended by `n` Nones, and every
      other column, and the key order, as it was. */
  ghost predicate Padded(d: Dict<Value>, p: Dict<Value>, n: nat) {
    && Has(d, "match_id") && Has(d, "league_id")
    && Get(d, "match_id").value.List? && Get(d, "league_id").value.List?
    && Keys(p) == Keys(d)
    && (forall k :: k != "match_id" && k != "league_id" ==> Get(p, k) == Get(d, k))
    && Get(p, "match_id") == Some(List(Get(d, "match_id").value.items + Nulls(n)))
    && Get(p, "league_id") == Some(List(Get(d, "league_id").value.items + Nulls(n)))
  }

  /** Padding succeeds when both id columns are lists, and then it extends each by
      `n` Nones and leaves every other column, and the key order, as it was. */
  lemma PadMatchIdsExtends(d: Dict<Value>, n: nat)
    requires Has(d, "match_id") && Has(d, "league_id")
    requires Get(d, "match_id").value.List? && Get(d, "league_id").value.List?
    ensures PadMatchIds(d, n).Ok? && Padded(d, PadMatchIds(d, n).value, n)
  {
    PadMatchIdsNone(d);
    var i := 0;
    while i < n
      invariant i <= n && PadMatchIds(d, i).Ok? && Padded(d, PadMatchIds(d, i).value, i)
    {
      i := i + 1;
      PadMatchIdsStep(d, i);
    }
  }

  /** No rounds pad nothing. */
  lemma PadMatchIdsNone(d: Dict<Value>)
    requires Has(d, "match_id") && Has(d, "league_id")
    requires Get(d, "match_id").value.List? && Get(d, "league_id").value.List?
    ensures PadMatchIds(d, 0).Ok? && Padded(d, PadMatchIds(d, 0).value, 0)
  {
    NullsNone(Get(d, "match_id").value.items);
    NullsNone(Get(d, "league_id").value.items);
  }

  /** One more round of the padding loop. */
  lemma PadMatchIdsStep(d: Dict<Value>, n: nat)
    requires n > 0 && PadMatchIds(d, n - 1).Ok? && Padded(d, PadMatchIds(d, n - 1).value, n - 1)
    ensures PadMatchIds(d, n).Ok? && Padded(d, PadMatchIds(d, n).value, n)
  {
    var p := PadMatchIds(d, n - 1).value;
    PadRound(p);
    PaddedStep(d, p, PadOnce(p).value, n);
  }

  /** Padding `n` rounds and then one more is padding `n + 1` rounds. */
  lemma PaddedStep(d: Dict<Value>, p: Dict<Value>, q: Dict<Value>, n: nat)
    requires n > 0 && Padded(d, p, n - 1) && Padded(p, q, 1)
    ensures Padded(d, q, n)
  {
    NullsStep(Get(d, "match_id").value.items, n);
    NullsStep(Get(d, "league_id").value.items, n);
  }

  /** One round of the padding loop. */
  lemma PadRound(p: Dict<Value>)
    requires Has(p, "match_id") && Has(p, "league_id")
    requires Get(p, "match_id").value.List? && Get(p, "league_id").value.List?
    ensures PadOnce(p).Ok? && Padded(p, PadOnce(p).value, 1)
  {
    var ms := Get(p, "match_id").value.items;
    var ls := Get(p, "league_id").value.items;
    PadOnceIs(p);
    PadTwice(p, List(ms + [Null]), List(ls + [Null]));
    NullsOne(ms);
    NullsOne(ls);
  }

  /** The round on lists appends to both. */
  lemma PadOnceIs(p: Dict<Value>)
    requires Has(p, "match_id") && Has(p, "league_id")
    requires Get(p, "match_id").value.List? && Get(p, "league_id").value.List?
    ensures var ms := Get(p, "match_id").value.items;
      var ls := Get(p, "league_id").value.items;
      PadOnce(p) == Ok(SetItem(SetItem(p, "match_id", List(ms + [Null])), "league_id", List(ls + [Null])))
  {
    var ms := Get(p, "match_id").value.items;
    GetSetItem(p, "match_id", List(ms + [Null]), "league_id");
  }

  /** Setting both id columns keeps the keys and every other column. */
  lemma PadTwice(p: Dict<Value>, m: Value, l: Value)
    requires Has(p, "match_id") && Has(p, "league_id")
    ensures var q := SetItem(SetItem(p, "match_id", m), "league_id", l);
      && Keys(q) == Keys(p)
      && (forall k :: k != "match_id" && k != "league_id" ==> Get(q, k) == Get(p, k))
      && Get(q, "match_id") == Some(m) && Get(q, "league_id") == Some(l)
  {
    var p1 := SetItem(p, "match_id", m);
    var q := SetItem(p1, "league_id", l);
    forall k ensures Get(q, k) == if k == "league_id" then Some(l) else if k == "match_id" then Some(m) else Get(p, k)
    {
      GetSetItem(p, "match_id", m, k);
      GetSetItem(p1, "league_id", l, k);
    }
  }

  /** How many Nones the loop appends: `len(date) - len(match_id)`, and none when
      that is negative (`range` of a negative number is empty). */
  function ScheduleGap(d: Dict<Value>): Result<nat> {
    var dates :- Lookup(d, "date");
    var nd :- Len(dates);
    var ids :- Lookup(d, "match_id");
    var ni :- Len(ids);
    Ok(if nd > ni then nd - ni else 0)
  }

  /** The steps after the columns: the padding loop, then one record per date. */
  function CleanSchedule(d: Dict<Value>): Result<Dict<Value>> {
    var gap :- ScheduleGap(d);
    var padded :- PadMatchIds(d, gap);
    ChangeDictOrientation(padded, "date")
  }

  /** `clean_team_schedule_table` */
  function CleanTeamScheduleTable(t: Table): Result<Dict<Value>> {
    var d :- ScheduleColumns(t);
    CleanSchedule(d)
  }

  /** A cleaned schedule holds one record per date, and the padded 'match_id' and
      'league_id' columns are at least as long as the 'date' column. */
  lemma CleanScheduleRecords(d: Dict<Value>)
    requires Has(d, "match_id") && Has(d, "league_id")
    requires Get(d, "match_id").value.List? && Get(d, "league_id").value.List?
    requires CleanSchedule(d).Ok?
    ensures var dates := Get(d, "date").value;
      var padded := PadMatchIds(d, ScheduleGap(d).value).value;
      && Len(dates).Ok? && Has(padded, "match_id") && Has(padded, "league_id")
      && Get(padded, "match_id").value.List? && Get(padded, "league_id").value.List?
      && |Get(padded, "match_id").value.items| >= Len(dates).value
      && |Get(padded, "league_id").value.items| >= |Get(d, "league_id").value.items|
      && |CleanSchedule(d).value[0].1.items| == Len(dates).value
  {
    var gap := ScheduleGap(d).value;
    PadMatchIdsExtends(d, gap);
    var padded := PadMatchIds(d, gap).value;
    var n := Len(Get(padded, "date").value).value;
    assert Get(padded, "date") == Get(d, "date");
    assert CleanSchedule(d).value == [("data", List(Records(padded, n).value))];
  }

  // ---------------------------------------------------------------- clean_teams

  /** `clean_teams`: the first table found is cleaned as the roster and the second as
      the schedule; no tables (None) raise TypeError and fewer than two IndexError. */
  function CleanTeams(teamTables: Option<seq<Table>>): (r: Result<Dict<Value>>)
    ensures teamTables.None? ==> r == Err(TypeError)
    ensures teamTables.Some? && |teamTables.value| < 2 ==> r.Err?
    ensures r.Ok? ==>
      && |teamTables.value| >= 2
      && CleanTeamRosterTable(teamTables.value[0]).Ok?
      && CleanTeamScheduleTable(teamTables.value[1]).Ok?
      && r.value == TeamData(CleanTeamRosterTable(teamTables.value[0]).value, CleanTeamScheduleTable(teamTables.value[1]).value)
  {
    match teamTables
    case None => Err(TypeError)
    case Some(ts) =>
      if |ts| == 0 then Err(IndexError)
      else
        var roster := CleanTeamRosterTable(ts[0]);
        if roster.Err? then Err(roster.error)
        else if |ts| < 2 then Err(IndexError)
        else
          var schedule := CleanTeamScheduleTable(ts[1]);
          if schedule.Err? then Err(schedule.error)
          else Ok(TeamData(roster.value, schedule.value))
  }

  /** `{'team_roster': roster, 'team_schedule': schedule}` */
  function TeamData(roster: Dict<Value>, schedule: Dict<Value>): (r: Dict<Value>)
    ensures Keys(r) == ["team_roster", "team_schedule"]
    ensures Get(r, "team_roster") == Some(Map(roster)) && Get(r, "team_schedule") == Some(Map(schedule))
  {
    var r := Pair("team_roster", Map(roster), "team_schedule", Map(schedule));
    KeyAt(r, 0);
    KeyAt(r, 1);
    r
  }

  /** `scrape_team_data` after the page is fetched, then `clean_data`: the roster and
      schedule tables picked by their caption patterns, in page order. */
  function ScrapeCleanData(pageTables: seq<Table>, patterns: seq<Finder>): Result<Dict<Value>> {
    var found :- TablesFromCaption(pageTables, patterns);
    CleanTeams(found)
  }

  // ---------------------------------------------------------------- the cleaners, step by step

  /** The roster's column steps, updating the dict as the source does. */
  method RosterColumnsSteps(t: Table) returns (r: Result<Dict<Value>>)
    ensures r == RosterColumns(t)
  {
    var d0 :- ParseTableData(t, true, 0, false);
    var ids := GetAllItemsFromTableUrls(t, [UrlMatcher(PlayerId)]);
    var parsed :- RosterParsed(d0, ids.value);
    var d := DeleteDictKeys(parsed, RosterDeleteKeys);
    d :- RenameDictKey(d, "pos", "position");
    d :- ConvertTeamsDictDtypes(d);
    return Ok(Project(d, RosterOrder));
  }

  /** The totals loop of `clean_team_roster_table`. */
  method MarkTotalsLoop(d: Dict<Value>, players: seq<Value>) returns (r: Result<(Dict<Value>, nat)>)
    ensures r == MarkTotals(d, players, |players|)
  {
    var cur := d;
    var totals: nat := 0;
    for i := 0 to |players|
      invariant MarkTotals(d, players, i) == Ok((cur, totals))
    {
      MarkTotalsStep(d, players, i, (cur, totals));
      var isTotal := In(Str("Total"), players[i]);
      if isTotal.Err? {
        return Err(isTotal.error);
      }
      if isTotal.value {
        var ids := Lookup(cur, "player_id");
        if ids.Err? {
          return Err(ids.error);
        }
        var padded := Append(ids.value, Null);
        if padded.Err? {
          return Err(padded.error);
        }
        cur := SetItem(cur, "player_id", padded.value);
        totals := totals + 1;
      }
    }
    return Ok((cur, totals));
  }

  /** Round `i` of the loop: it extends the first `i` rounds, and its error is the
      loop's. */
  lemma MarkTotalsStep(d: Dict<Value>, players: seq<Value>, i: nat, p: (Dict<Value>, nat))
    requires i < |players| && MarkTotals(d, players, i) == Ok(p)
    ensures MarkTotals(d, players, i + 1) == MarkOne(p, players[i])
    ensures MarkOne(p, players[i]).Err? ==> MarkTotals(d, players, |players|) == MarkOne(p, players[i])
  {
    if MarkOne(p, players[i]).Err? {
      MarkTotalsFails(d, players, i + 1, |players|);
    }
  }

  lemma {:induction false} MarkTotalsFails(d: Dict<Value>, players: seq<Value>, m: nat, n: nat)
    requires m <= n <= |players| && MarkTotals(d, players, m).Err?
    ensures MarkTotals(d, players, n) == MarkTotals(d, players, m)
    decreases n
  {
    if m < n {
      MarkTotalsFails(d, players, m, n - 1);
    }
  }

  /** `clean_team_roster_table` step by step. */
  method CleanTeamRosterTableSteps(t: Table) returns (r: Result<Dict<Value>>)
    ensures r == CleanTeamRosterTable(t)
  {
    var d :- RosterColumnsSteps(t);
    r := CleanRosterSteps(d);
  }

  /** The totals loop, the reorientation and the cut. */
  method CleanRosterSteps(d: Dict<Value>) returns (r: Result<Dict<Value>>)
    ensures r == CleanRoster(d)
  {
    var players :- Lookup(d, "player");
    var names :- Iterate(players);
    var marked :- MarkTotalsLoop(d, names);
    var oriented :- ChangeDictOrientationLoop(marked.0, "player");
    var data := oriented[0].1.items;
    return Ok(SetItem(oriented, "data", List(Slice(data, 0, -(marked.1 as int)))));
  }

  /** The schedule's column steps, updating the dict as the source does. */
  method ScheduleColumnsSteps(t: Table) returns (r: Result<Dict<Value>>)
    ensures r == ScheduleColumns(t)
  {
    var d0 :- ParseTableData(t, false, 0, false);
    var matchIds := GetAllItemsFromTableUrls(t, [UrlMatcher(MatchId)]);
    var leagueIds := GetAllItemsFromTableUrls(t, [UrlMatcher(CompId)]);
    var opponentIds := GetAllItemsFromTableUrls(t, [UrlMatcher(SquadId)]);
    var parsed :- ScheduleParsed(d0, matchIds.value, leagueIds.value, opponentIds.value);
    var d :- RenameDictKey(parsed, "venue", "home_away");
    d :- RenameDictKey(d, "comp", "league_name");
    d := DeleteDictKeys(d, ScheduleDeleteKeys);
    d :- ConvertTeamsDictDtypes(d);
    return Ok(Project(d, ScheduleOrder));
  }

  /** The padding loop of `clean_team_schedule_table`. */
  method PadMatchIdsLoop(d: Dict<Value>, n: nat) returns (r: Result<Dict<Value>>)
    ensures r == PadMatchIds(d, n)
  {
    var cur := d;
    for i := 0 to n
      invariant PadMatchIds(d, i) == Ok(cur)
    {
      var m := Lookup(cur, "match_id");
      var m' := if m.Ok? then Append(m.value, Null) else Err(m.error);
      if m'.Err? {
        PadMatchIdsFails(d, i + 1, n);
        return Err(m'.error);
      }
      cur := SetItem(cur, "match_id", m'.value);
      var l := Lookup(cur, "league_id");
      var l' := if l.Ok? then Append(l.value, Null) else Err(l.error);
      if l'.Err? {
        PadMatchIdsFails(d, i + 1, n);
        return Err(l'.error);
      }
      cur := SetItem(cur, "league_id", l'.value);
    }
    return Ok(cur);
  }

  /** Once padding has failed, further rounds repeat the same error. */
  lemma {:induction false} PadMatchIdsFails(d: Dict<Value>, m: nat, n: nat)
    requires m <= n && PadMatchIds(d, m).Err?
    ensures PadMatchIds(d, n) == PadMatchIds(d, m)
    decreases n - m
  {
    if m < n {
      PadMatchIdsErr(d, m);
      var m1: nat := m + 1;
      PadMatchIdsFails(d, m1, n);
    }
  }

  lemma PadMatchIdsErr(d: Dict<Value>, k: nat)
    requires PadMatchIds(d, k).Err?
    ensures PadMatchIds(d, k + 1) == PadMatchIds(d, k)
  {
  }

  /** `clean_team_schedule_table` step by step. */
  method CleanTeamScheduleTableSteps(t: Table) returns (r: Result<Dict<Value>>)
    ensures r == CleanTeamScheduleTable(t)
  {
    var d :- ScheduleColumnsSteps(t);
    var gap :- ScheduleGap(d);
    var padded :- PadMatchIdsLoop(d, gap);
    r := ChangeDictOrientationLoop(padded, "date");
  }

  /** `clean_teams` step by step. */
  method CleanTeamsSteps(teamTables: Option<seq<Table>>) returns (r: Result<Dict<Value>>)
    ensures r == CleanTeams(teamTables)
  {
    if teamTables.None? {
      return Err(TypeError);
    }
    var ts := teamTables.value;
    if |ts| == 0 {
      return Err(IndexError);
    }
    var roster := CleanTeamRosterTableSteps(ts[0]);
    if roster.Err? {
      return Err(roster.error);
    }
    if |ts| < 2 {
      return Err(IndexError);
    }
    var schedule := CleanTeamScheduleTableSteps(ts[1]);
    if schedule.Err? {
      return Err(schedule.error);
    }
    return Ok(TeamData(roster.value, schedule.value));
  }
}
