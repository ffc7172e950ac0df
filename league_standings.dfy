/** The league-standings scraper: the standings tables of one league-season, grouped by
    table name, cleaned column by column and turned into one record per team, with
    the top scorer cell split into players and goals. */
module LeagueStandings {
  import opened Wrappers
  import opened Text
  import opened Lists
  import opened Dicts
  import opened Values
  import opened Patterns
  import opened FbrefScraper
  import opened StatsScraper

  /** `convert_standings_dict_dtypes`' integer and float columns. */
  const IntKeys: seq<string> := ["rk", "mp", "w", "d", "l", "gf", "ga", "pts"]
  const FloatKeys: seq<string> := ["pts/mp", "xg", "xga"]

  /** `reorder_standings_dict_keys`' order. */
  const StandingsOrder: seq<string> :=
    ["rk", "team_name", "team_id", "mp", "w", "d", "l", "gf", "ga", "gd", "pts",
     "pts/mp", "xg", "xga", "xgd", "xgd/90", "attendance", "goalkeeper", "top_team_scorer"]

  // ---------------------------------------------------------------- scraping

  /** One standings table: its columns plus the `team_id` column from the squad links. */
  function StandingsTableData(t: Table): Result<Dict<Value>> {
    var d :- ParseTableData(t, false, 0, false);
    var ids :- ItemsOf(ParseTableRows(t), [UrlMatcher(SquadId)]);
    Ok(SetItem(d, "team_id", List(Strs(ids))))
  }

  /** The name each table is grouped under (`get_table_name(table, remove_table=False)`). */
  function NameOf(t: Table): string
    requires t.caption.Some?
  {
    GetTableName(t, false).value
  }

  /** The tables keyed by their names, in order. */
  function Named(tables: seq<Table>): (r: seq<(string, Table)>)
    requires forall j :: 0 <= j < |tables| ==> tables[j].caption.Some?
    ensures |r| == |tables| && forall j :: 0 <= j < |tables| ==> r[j] == (NameOf(tables[j]), tables[j])
  {
    seq(|tables|, j requires 0 <= j < |tables| => (NameOf(tables[j]), tables[j]))
  }

  /** The grouping loop of `scrape_league_standings_data`: a table whose name is
      already a key is skipped, so the first table of each name wins. */
  function GroupStandings(tables: seq<Table>): Result<Dict<Dict<Value>>>
    requires forall j :: 0 <= j < |tables| ==> tables[j].caption.Some?
  {
    FirstWins(Named(tables), StandingsTableData)
  }

  /** The keys are the distinct table names in order of first appearance, and each
      holds the data of the first table with that name (`Find` gives the first
      position of a name). */
  lemma GroupStandingsFirstWins(tables: seq<Table>)
    requires forall j :: 0 <= j < |tables| ==> tables[j].caption.Some?
    requires GroupStandings(tables).Ok?
    ensures var r := GroupStandings(tables).value;
      var items := Named(tables);
      && Keys(r) == Dedup(Keys(items))
      && forall j :: 0 <= j < |r| ==>
           Has(items, r[j].0) && StandingsTableData(tables[Find(items, r[j].0)]) == Ok(r[j].1)
  {
    var items := Named(tables);
    FirstWinsKeys(items, StandingsTableData);
    FirstWinsFirst(items, StandingsTableData);
  }

  /** Every table `get_tables_from_caption` takes has a caption. */
  lemma {:induction false} CaptionedPicks(tables: seq<Table>, patterns: seq<Finder>)
    requires |patterns| > 0 && ScanTables(tables, patterns).Ok?
    ensures var sel := ScanTables(tables, patterns).value;
      forall k :: 0 <= k < |sel.picked| ==> tables[sel.picked[k]].caption.Some?
  {
    if |tables| > 0 {
      var n := |tables| - 1;
      var prefix := tables[..n];
      CaptionedPicks(prefix, patterns);
      var sel := ScanTables(prefix, patterns).value;
      match GetTableName(tables[n], true)
      case Some(name) =>
        ScanPatternsPicks(sel, n, name, patterns);
        var r := ScanTables(tables, patterns).value;
        assert r == ScanPatterns(sel, n, name, patterns);
        forall k | 0 <= k < |r.picked| ensures tables[r.picked[k]].caption.Some? {
          if k < |sel.picked| {
            assert r.picked[k] == sel.picked[k];
            assert prefix[sel.picked[k]] == tables[sel.picked[k]];
          }
        }
    }
  }

  lemma {:induction false} ScanPatternsPicks(sel: Selection, index: nat, name: string, patterns: seq<Finder>)
    requires Consistent(sel, index + 1)
    ensures var r := ScanPatterns(sel, index, name, patterns);
      |r.picked| >= |sel.picked| && r.picked[..|sel.picked|] == sel.picked
      && forall k :: |sel.picked| <= k < |r.picked| ==> r.picked[k] == index
  {
    if |patterns| > 0 {
      ScanPatternsPicks(sel, index, name, patterns[..|patterns| - 1]);
    }
  }

  /** `scrape_league_standings_data` after the page is fetched: the standings tables
      found by the caption patterns, grouped by name. No table found makes the loop
      iterate over None (TypeError). */
  function ScrapeLeagueStandingsData(pageTables: seq<Table>, patterns: seq<Finder>): Result<Dict<Dict<Value>>>
    requires |patterns| > 0
  {
    var found :- TablesFromCaption(pageTables, patterns);
    match found
    case None => Err(TypeError)
    case Some(tables) =>
      CaptionedPicks(pageTables, patterns);
      GroupStandings(tables)
  }

  /** The grouping loop. */
  method GroupStandingsTables(tables: seq<Table>) returns (r: Result<Dict<Dict<Value>>>)
    requires forall j :: 0 <= j < |tables| ==> tables[j].caption.Some?
    ensures r == GroupStandings(tables)
  {
    ghost var items := Named(tables);
    var acc: Dict<Dict<Value>> := [];
    for i := 0 to |tables|
      invariant FirstWins(items[..i], StandingsTableData) == Ok(acc)
    {
      FirstWinsSnoc(items, StandingsTableData, i);
      var name := NameOf(tables[i]);
      if !Has(acc, name) {
        var sub := StandingsTableData(tables[i]);
        if sub.Err? {
          FirstWinsFails(items, StandingsTableData, i + 1);
          return Err(sub.error);
        }
        acc := SetItem(acc, name, sub.value);
      }
    }
    assert items[..|tables|] == items;
    return Ok(acc);
  }

  // ---------------------------------------------------------------- columns

  /** `convert_standings_dict_dtypes` */
  function ConvertStandingsDictDtypes(d: Dict<Value>): (r: Result<Dict<Value>>)
    ensures r.Ok? ==> Keys(r.value) == Keys(d)
    ensures r.Ok? ==> forall j :: 0 <= j < |d| ==>
      && (d[j].0 in IntKeys ==> ConvertListFromStr(d[j].1, "int") == Ok(r.value[j].1))
      && (d[j].0 !in IntKeys && d[j].0 in FloatKeys ==> ConvertListFromStr(d[j].1, "float") == Ok(r.value[j].1))
      && (d[j].0 !in IntKeys && d[j].0 !in FloatKeys ==> r.value[j].1 == d[j].1)
  {
    ConvertedDtypes(d, IntKeys, FloatKeys)
  }

  /** 'notes' dropped and 'squad' renamed to 'team_name', each when present. */
  function DropNotesRenameSquad(c: Dict<Value>): Dict<Value> {
    var c1 := Remove(c, "notes");
    if Has(c1, "squad") then RenameDictKey(c1, "squad", "team_name").value else c1
  }

  /** Neither 'notes' nor 'squad' is left, 'team_name' holds the 'squad' column when
      there was one, and every other column is untouched. */
  lemma GetDropNotesRenameSquad(c: Dict<Value>, k: string)
    ensures Get(DropNotesRenameSquad(c), k) ==
      if k == "notes" || k == "squad" then None
      else if k == "team_name" && Has(c, "squad") then Get(c, "squad")
      else Get(c, k)
  {
    var c1 := Remove(c, "notes");
    GetRemove(c, "notes", k);
    GetRemove(c, "notes", "squad");
    if Has(c1, "squad") {
      GetRenameDictKey(c1, "squad", "team_name", k);
    }
  }

  /** The column steps of `clean_league_standings`: dtypes converted, 'notes' dropped,
      'squad' renamed to 'team_name', team names cleaned (KeyError without a
      'team_name' column), and the keys projected onto the standings order. */
  function CleanStandingsColumns(sub: Dict<Value>): Result<Dict<Value>> {
    var c :- ConvertStandingsDictDtypes(sub);
    var renamed := DropNotesRenameSquad(c);
    var names :- Lookup(renamed, "team_name");
    var cleaned :- CleanColumn(TeamName, names);
    Ok(Project(SetItem(renamed, "team_name", cleaned), StandingsOrder))
  }

  /** The cleaned columns follow the standings order and include 'team_name'. */
  lemma CleanStandingsColumnsKeys(sub: Dict<Value>)
    requires CleanStandingsColumns(sub).Ok?
    ensures IsSubseq(Keys(CleanStandingsColumns(sub).value), StandingsOrder)
    ensures Has(CleanStandingsColumns(sub).value, "team_name")
  {
    var renamed := DropNotesRenameSquad(ConvertStandingsDictDtypes(sub).value);
    var cleaned := CleanColumn(TeamName, Lookup(renamed, "team_name").value).value;
    var s := SetItem(renamed, "team_name", cleaned);
    ProjectKeysSubseq(s, StandingsOrder);
    GetProject(s, StandingsOrder, "team_name");
    GetSetItem(renamed, "team_name", cleaned, "team_name");
  }

  /** The column 'team_name' is cleaned from: 'squad' when there is one. */
  function TeamSource(c: Dict<Value>): string {
    if Has(c, "squad") then "squad" else "team_name"
  }

  /** 'team_name' holds the cleaned 'squad' column, or the cleaned 'team_name' column
      when there is no 'squad'. */
  lemma GetCleanStandingsTeamName(sub: Dict<Value>)
    requires CleanStandingsColumns(sub).Ok?
    ensures var c := ConvertStandingsDictDtypes(sub).value;
      && Has(c, TeamSource(c)) && Has(CleanStandingsColumns(sub).value, "team_name")
      && CleanColumn(TeamName, Get(c, TeamSource(c)).value) == Ok(Get(CleanStandingsColumns(sub).value, "team_name").value)
  {
    var c := ConvertStandingsDictDtypes(sub).value;
    var renamed := DropNotesRenameSquad(c);
    var cleaned := CleanColumn(TeamName, Lookup(renamed, "team_name").value).value;
    var s := SetItem(renamed, "team_name", cleaned);
    GetDropNotesRenameSquad(c, "team_name");
    GetProject(s, StandingsOrder, "team_name");
    GetSetItem(renamed, "team_name", cleaned, "team_name");
  }

  /** Every other column of the standings order keeps its converted value, and any
      column outside the order is gone. */
  lemma GetCleanStandingsColumns(sub: Dict<Value>, k: string)
    requires CleanStandingsColumns(sub).Ok? && k != "team_name" && k != "notes" && k != "squad"
    ensures Get(CleanStandingsColumns(sub).value, k) ==
      if k in StandingsOrder then Get(ConvertStandingsDictDtypes(sub).value, k) else None
  {
    var c := ConvertStandingsDictDtypes(sub).value;
    var renamed := DropNotesRenameSquad(c);
    var cleaned := CleanColumn(TeamName, Lookup(renamed, "team_name").value).value;
    var s := SetItem(renamed, "team_name", cleaned);
    assert CleanStandingsColumns(sub).value == Project(s, StandingsOrder);
    GetProject(s, StandingsOrder, k);
    GetSetItem(renamed, "team_name", cleaned, k);
    GetDropNotesRenameSquad(c, k);
  }

  /** A table with neither a 'squad' nor a 'team_name' column fails with KeyError. */
  lemma CleanStandingsColumnsNoTeams(sub: Dict<Value>)
    requires ConvertStandingsDictDtypes(sub).Ok?
    requires !Has(sub, "squad") && !Has(sub, "team_name")
    ensures CleanStandingsColumns(sub) == Err(KeyError)
  {
    var c := ConvertStandingsDictDtypes(sub).value;
    assert Keys(c) == Keys(sub);
    GetDropNotesRenameSquad(c, "team_name");
  }

  // ---------------------------------------------------------------- orientation

  /** One team's record: every column's `i`-th entry (IndexError when a column is too
      short). */
  function RowAt(sub: Dict<Value>, i: nat): (r: Result<Dict<Value>>)
    ensures r.Ok? <==> forall j :: 0 <= j < |sub| ==> IndexAt(sub[j].1, i).Ok?
    ensures r.Ok? ==> Keys(r.value) == Keys(sub)
    ensures r.Ok? ==> forall j :: 0 <= j < |sub| ==> IndexAt(sub[j].1, i) == Ok(r.value[j].1)
  {
    MapValues(sub, (k: string, v: Value) => IndexAt(v, i))
  }

  /** The records of rows `0 .. n - 1`. */
  function RowsUpTo(sub: Dict<Value>, n: nat): Result<seq<Dict<Value>>> {
    Collect(Rows(sub), n)
  }

  function Rows(sub: Dict<Value>): nat -> Result<Dict<Value>> {
    i => RowAt(sub, i)
  }

  /** `change_league_standings_dict_orientation`: one record per entry of 'rk'. */
  function ChangeLeagueStandingsDictOrientation(sub: Dict<Value>): Result<seq<Dict<Value>>> {
    var rk :- Lookup(sub, "rk");
    var n :- Len(rk);
    RowsUpTo(sub, n)
  }

  /** One record per 'rk' entry, each with every column of the table, the `i`-th
      holding every column's `i`-th entry. */
  lemma ChangeLeagueStandingsDictOrientationShape(sub: Dict<Value>)
    requires ChangeLeagueStandingsDictOrientation(sub).Ok?
    ensures Has(sub, "rk") && Len(Get(sub, "rk").value).Ok?
    ensures var rows := ChangeLeagueStandingsDictOrientation(sub).value;
      && |rows| == Len(Get(sub, "rk").value).value
      && forall i :: 0 <= i < |rows| ==>
           Keys(rows[i]) == Keys(sub) && forall j :: 0 <= j < |sub| ==> IndexAt(sub[j].1, i) == Ok(rows[i][j].1)
  {
  }

  /** The loops of `change_league_standings_dict_orientation`. */
  method StandingsRows(sub: Dict<Value>) returns (r: Result<seq<Dict<Value>>>)
    ensures r == ChangeLeagueStandingsDictOrientation(sub)
  {
    var rk :- Lookup(sub, "rk");
    var n :- Len(rk);
    var rows: seq<Dict<Value>> := [];
    for i := 0 to n
      invariant Collect(Rows(sub), i) == Ok(rows)
    {
      var row := RowAt(sub, i);
      if row.Err? {
        CollectFirstError(Rows(sub), i, n);
        return Err(row.error);
      }
      rows := rows + [row.value];
    }
    return Ok(rows);
  }

  // ---------------------------------------------------------------- top scorer

  /** A top scorer cell "First-Last-20": the goals are the last dash-separated part,
      the name the others joined with blanks, and a name with a comma becomes the
      list of its comma-separated parts. `int()` of a non-numeric tail raises
      ValueError. */
  function ScorerParts(scorer: string): (r: Result<(Value, int)>)
    ensures r.Err? ==> r.error == ValueError
  {
    var parts := Split(scorer, '-');
    var name := Join(parts[..|parts| - 1], " ");
    var names := Split(name, ',');
    var player := if |names| > 1 then List(Strs(names)) else Str(name);
    match ParseInt(parts[|parts| - 1])
    case None => Err(ValueError)
    case Some(g) => Ok((player, g))
  }

  /** The digits of a number contain no dash. */
  lemma DashFreeDigits(n: nat)
    ensures '-' !in NatToString(n)
  {
    var digits := NatToString(n);
    forall k | 0 <= k < |digits| ensures digits[k] != '-' {
      assert IsDigit(digits[k]);
    }
  }

  /** "Messi-20" gives player "Messi" and 20 goals. */
  lemma ScorerPartsOfName(name: string, goals: nat)
    requires '-' !in name && ',' !in name
    ensures ScorerParts(name + "-" + NatToString(goals)) == Ok((Str(name), goals as int))
  {
    var digits := NatToString(goals);
    DashFreeDigits(goals);
    assert name + "-" + digits == name + ['-'] + digits;
    SplitAround(name, digits, '-');
    SplitWithoutSep(name, ',');
    ParseIntOfNat(goals);
  }

  /** A hyphenated name keeps its parts, joined by a blank: "Jean-Pierre-7" gives
      player "Jean Pierre". */
  lemma ScorerPartsOfHyphenatedName(a: string, b: string, goals: nat)
    requires '-' !in a && '-' !in b && ',' !in a && ',' !in b
    ensures ScorerParts(a + "-" + b + "-" + NatToString(goals)) == Ok((Str(a + " " + b), goals as int))
  {
    var digits := NatToString(goals);
    DashFreeDigits(goals);
    assert a + "-" + b + "-" + digits == a + ['-'] + (b + ['-'] + digits);
    SplitAfter(a, b + ['-'] + digits, '-');
    SplitAround(b, digits, '-');
    var parts := Split(a + "-" + b + "-" + digits, '-');
    assert parts == [a, b, digits];
    assert parts[..2] == [a, b];
    assert Join([a, b], " ") == a + " " + Join([b], " ");
    assert ',' !in a + " " + b;
    SplitWithoutSep(a + " " + b, ',');
    ParseIntOfNat(goals);
  }

  /** Names separated by a comma become the list of names: "A,B-3" gives player
      ["A", "B"]. */
  lemma ScorerPartsOfNames(a: string, b: string, goals: nat)
    requires '-' !in a && '-' !in b && ',' !in a && ',' !in b
    ensures ScorerParts(a + "," + b + "-" + NatToString(goals)) == Ok((List([Str(a), Str(b)]), goals as int))
  {
    var digits := NatToString(goals);
    DashFreeDigits(goals);
    var name := a + "," + b;
    assert '-' !in name;
    assert name + "-" + digits == name + ['-'] + digits;
    SplitAround(name, digits, '-');
    var parts := Split(name + "-" + digits, '-');
    assert parts[..|parts| - 1] == [name];
    assert name == a + [','] + b;
    SplitAround(a, b, ',');
    assert Strs([a, b]) == [Str(a), Str(b)];
    ParseIntOfNat(goals);
  }

  /** A cell without a dash and without digits (an empty cell included) raises
      ValueError. */
  lemma ScorerPartsWithoutGoals(name: string)
    requires '-' !in name && forall k :: 0 <= k < |name| ==> !IsDigit(name[k])
    ensures ScorerParts(name) == Err(ValueError)
  {
    SplitWithoutSep(name, '-');
    ParseIntWithoutDigits(name);
  }

  /** The cleaned cell: a one-element 'player' list and the goals as a number. */
  function ScorerValue(player: Value, goals: int): Value {
    Map([("player", List([player])), ("goals_scored", Int(goals))])
  }

  /** `clean_top_scorer` on one standings record: the cell becomes a dict with a
      one-element 'player' list and the goals unwrapped to a number, placed last. */
  function CleanTopScorer(record: Dict<Value>): Result<Dict<Value>> {
    var popped :- Pop(record, "top_team_scorer");
    var scorer :- AsStr(popped.0);
    var parsed :- ScorerParts(scorer);
    Ok(SetItem(Remove(popped.1, "raw_top_scorer"), "top_team_scorer", ScorerValue(parsed.0, parsed.1)))
  }

  /** The cell is parsed when it is text (AttributeError otherwise); the record loses
      'raw_top_scorer' and gets the parsed scorer under 'top_team_scorer', moved to
      the end; every other entry is kept in order. */
  lemma CleanTopScorerShape(record: Dict<Value>)
    requires Has(record, "top_team_scorer")
    ensures var cell := Get(record, "top_team_scorer").value;
      && (!cell.Str? ==> CleanTopScorer(record) == Err(AttributeError))
      && (cell.Str? && ScorerParts(cell.s).Err? ==> CleanTopScorer(record) == Err(ValueError))
      && (cell.Str? && ScorerParts(cell.s).Ok? ==>
            var rest := Remove(Remove(record, "top_team_scorer"), "raw_top_scorer");
            var parsed := ScorerParts(cell.s).value;
            && CleanTopScorer(record) == Ok(rest + [("top_team_scorer", ScorerValue(parsed.0, parsed.1))])
            && IsSubseq(Keys(rest), Keys(record)))
  {
    var rest0 := Remove(record, "top_team_scorer");
    var rest := Remove(rest0, "raw_top_scorer");
    GetRemove(rest0, "raw_top_scorer", "top_team_scorer");
    GetRemove(record, "top_team_scorer", "top_team_scorer");
    KeysRemove(rest0, "raw_top_scorer");
    KeysRemove(record, "top_team_scorer");
    SubseqTrans(Keys(rest), Keys(rest0), Keys(record));
  }

  /** `clean_top_scorer` step by step: the cell parked under 'raw_top_scorer', the
      parsed scorer stored under 'top_team_scorer', then 'raw_top_scorer' popped. */
  method CleanTopScorerInPlace(record: Dict<Value>) returns (r: Result<Dict<Value>>)
    ensures r == CleanTopScorer(record)
  {
    var popped :- Pop(record, "top_team_scorer");
    var rest := popped.1;
    var d := SetItem(rest, "raw_top_scorer", List([popped.0]));
    var scorer :- AsStr(popped.0);
    var parsed :- ScorerParts(scorer);
    var cell := ScorerValue(parsed.0, parsed.1);
    GetRemove(record, "top_team_scorer", "top_team_scorer");
    GetSetItem(rest, "raw_top_scorer", List([popped.0]), "top_team_scorer");
    GetRemove(rest, "raw_top_scorer", "top_team_scorer");
    RemoveAppend(d, "raw_top_scorer", ("top_team_scorer", cell));
    RemoveSetItem(rest, "raw_top_scorer", List([popped.0]));
    d := SetItem(d, "top_team_scorer", cell);
    d := Remove(d, "raw_top_scorer");
    return Ok(d);
  }

  /** `clean_top_scorer` applied to a record that has a top scorer. */
  function CleanRecordScorer(record: Dict<Value>): Result<Dict<Value>> {
    if Has(record, "top_team_scorer") then CleanTopScorer(record) else Ok(record)
  }

  /** One iteration of the top scorer loop. */
  method CleanRecordScorerInPlace(record: Dict<Value>) returns (r: Result<Dict<Value>>)
    ensures r == CleanRecordScorer(record)
  {
    r := Ok(record);
    if Has(record, "top_team_scorer") {
      r := CleanTopScorerInPlace(record);
    }
  }

  /** `for d in standings_list: if 'top_team_scorer' in d.keys(): clean_top_scorer(d)` */
  function CleanScorers(rows: seq<Dict<Value>>): Result<seq<Dict<Value>>> {
    MapAll(rows, CleanRecordScorer)
  }

  // ---------------------------------------------------------------- cleaning

  /** The output's entry for one standings table. */
  function EntryValue(key: string, standings: seq<Dict<Value>>): Value {
    Map([("standings_type", Str(key)), ("standings", List(MapsOf(standings)))])
  }

  /** One entry of the output's 'data': the table's name and its team records. */
  function StandingsEntry(key: string, sub: Dict<Value>): Result<Value> {
    var columns :- CleanStandingsColumns(sub);
    var rows :- ChangeLeagueStandingsDictOrientation(columns);
    var standings :- CleanScorers(rows);
    Ok(EntryValue(key, standings))
  }

  function MapsOf(rows: seq<Dict<Value>>): (r: seq<Value>)
    ensures |r| == |rows| && forall i :: 0 <= i < |rows| ==> r[i] == Map(rows[i])
  {
    seq(|rows|, i requires 0 <= i < |rows| => Map(rows[i]))
  }

  /** `clean_league_standings`: one entry per standings table, in order. */
  function CleanLeagueStandings(d: Dict<Dict<Value>>): Result<Value> {
    var entries :- MapValues(d, StandingsEntry);
    Ok(DataOf(ValuesOf(entries)))
  }

  /** The output holds one entry per table, in table order, each naming its table and
      holding that table's cleaned records, one per team. */
  lemma CleanLeagueStandingsShape(d: Dict<Dict<Value>>)
    requires CleanLeagueStandings(d).Ok?
    ensures var out := CleanLeagueStandings(d).value;
      && out.Map? && Keys(out.m) == ["data"] && out.m[0].1.List?
      && |out.m[0].1.items| == |d|
      && forall j :: 0 <= j < |d| ==> exists standings ::
           && CleanStandingsColumns(d[j].1).Ok?
           && ChangeLeagueStandingsDictOrientation(CleanStandingsColumns(d[j].1).value).Ok?
           && CleanScorers(ChangeLeagueStandingsDictOrientation(CleanStandingsColumns(d[j].1).value).value) == Ok(standings)
           && out.m[0].1.items[j] == EntryValue(d[j].0, standings)
  {
    var entries := MapValues(d, StandingsEntry).value;
    forall j | 0 <= j < |d|
      ensures exists standings ::
           && CleanStandingsColumns(d[j].1).Ok?
           && ChangeLeagueStandingsDictOrientation(CleanStandingsColumns(d[j].1).value).Ok?
           && CleanScorers(ChangeLeagueStandingsDictOrientation(CleanStandingsColumns(d[j].1).value).value) == Ok(standings)
           && ValuesOf(entries)[j] == EntryValue(d[j].0, standings)
    {
      assert StandingsEntry(d[j].0, d[j].1) == Ok(entries[j].1);
      var standings := CleanScorers(ChangeLeagueStandingsDictOrientation(CleanStandingsColumns(d[j].1).value).value).value;
      assert ValuesOf(entries)[j] == EntryValue(d[j].0, standings);
    }
  }

  /** The loop of `clean_league_standings`. */
  method CleanLeagueStandingsLoop(d: Dict<Dict<Value>>) returns (r: Result<Value>)
    ensures r == CleanLeagueStandings(d)
  {
    var entries: Dict<Value> := [];
    for i := 0 to |d|
      invariant MapValuesUpTo(d, StandingsEntry, i) == Ok(entries)
    {
      var entry := CleanStandingsTable(d[i].0, d[i].1);
      MapValuesLoopStep(d, StandingsEntry, i, entries);
      if entry.Err? {
        return Err(entry.error);
      }
      entries := AddNew(entries, d[i].0, entry.value);
    }
    MapValuesLoopDone(d, StandingsEntry, entries);
    r := Ok(DataOf(ValuesOf(entries)));
  }

  /** The body of the loop of `clean_league_standings` for one table. */
  method CleanStandingsTable(key: string, sub: Dict<Value>) returns (r: Result<Value>)
    ensures r == StandingsEntry(key, sub)
  {
    var columns :- CleanStandingsColumns(sub);
    var rows :- StandingsRows(columns);
    var standings :- CleanScorersLoop(rows);
    return Ok(EntryValue(key, standings));
  }

  /** The top scorer loop of `clean_league_standings`. */
  method CleanScorersLoop(rows: seq<Dict<Value>>) returns (r: Result<seq<Dict<Value>>>)
    ensures r == CleanScorers(rows)
  {
    var standings: seq<Dict<Value>> := [];
    for i := 0 to |rows|
      invariant MapAll(rows[..i], CleanRecordScorer) == Ok(standings)
    {
      assert rows[..i + 1][..i] == rows[..i];
      var cleaned := CleanRecordScorerInPlace(rows[i]);
      if cleaned.Err? {
        MapAllFirstError(rows, CleanRecordScorer, i, |rows|);
        assert rows[..|rows|] == rows;
        return Err(cleaned.error);
      }
      standings := standings + [cleaned.value];
    }
    assert rows[..|rows|] == rows;
    return Ok(standings);
  }
}
