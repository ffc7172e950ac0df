/** The base of the five stat scrapers (scraper/fbref_stats_scraper.py): the stat-table
    reader that keeps only rows as wide as the header, the column-map driven
    delete -> rename -> reorder -> convert pipeline, the per-column scalar cleaners, and
    the choice between the advanced and the basic column map. */
module StatsScraper {
  import opened Wrappers
  import opened Text
  import opened Lists
  import opened Dicts
  import opened Values
  import opened Patterns
  import opened FbrefScraper

  // ---------------------------------------------------------------- stat table rows

  /** The rows with exactly `w` cells, in order. */
  function SameWidth(rows: seq<Row>, w: nat): (r: seq<Row>)
    ensures forall k :: 0 <= k < |r| ==> |r[k].cells| == w && r[k] in rows
    ensures forall k :: 0 <= k < |rows| && |rows[k].cells| == w ==> rows[k] in r
  {
    if |rows| == 0 then []
    else
      var p := SameWidth(rows[..|rows| - 1], w);
      var last := rows[|rows| - 1];
      assert rows == rows[..|rows| - 1] + [last];
      if |last.cells| == w then p + [last] else p
  }

  lemma {:induction false} SameWidthSubseq(rows: seq<Row>, w: nat)
    ensures IsSubseq(SameWidth(rows, w), rows)
  {
    if |rows| > 0 {
      var rows' := rows[..|rows| - 1];
      var last := rows[|rows| - 1];
      var p := SameWidth(rows', w);
      SameWidthSubseq(rows', w);
      if |last.cells| == w {
        assert (p + [last])[..|p|] == p;
      } else {
        SubseqExtend(p, rows', last);
        assert rows' + [last] == rows;
      }
    }
  }

  /** Position of the header row among the non-spacer rows. */
  function HeaderAt(skipRow: bool): nat {
    if skipRow then 1 else 0
  }

  /** `parse_stat_table_rows`: the header row (the second row when `skipRow`), then the
      later rows that have as many cells as the header. A table too short to have that
      header row raises IndexError. */
  function StatTableRows(t: Table, skipRow: bool): (r: Result<seq<Row>>)
    ensures r.Err? <==> |ParseTableRows(t)| <= HeaderAt(skipRow)
    ensures r.Err? ==> r.error == IndexError
    ensures r.Ok? ==>
      var rows := ParseTableRows(t);
      var h := HeaderAt(skipRow);
      && |r.value| >= 1 && r.value[0] == rows[h]
      && (forall k :: 1 <= k < |r.value| ==> |r.value[k].cells| == |rows[h].cells| && r.value[k] in rows[h + 1..])
      && (forall k :: h < k < |rows| && |rows[k].cells| == |rows[h].cells| ==> rows[k] in r.value)
  {
    var rows := ParseTableRows(t);
    var h := HeaderAt(skipRow);
    if |rows| <= h then Err(IndexError)
    else
      var data := rows[h + 1..];
      var kept := SameWidth(data, |rows[h].cells|);
      StatRowsShape(rows, h, kept);
      Ok([rows[h]] + kept)
  }

  lemma StatRowsShape(rows: seq<Row>, h: nat, kept: seq<Row>)
    requires h < |rows| && kept == SameWidth(rows[h + 1..], |rows[h].cells|)
    ensures var r := [rows[h]] + kept;
      && (forall k :: 1 <= k < |r| ==> |r[k].cells| == |rows[h].cells| && r[k] in rows[h + 1..])
      && (forall k :: h < k < |rows| && |rows[k].cells| == |rows[h].cells| ==> rows[k] in r)
  {
    var data := rows[h + 1..];
    var r := [rows[h]] + kept;
    forall k | 1 <= k < |r| ensures |r[k].cells| == |rows[h].cells| && r[k] in data {
      assert r[k] == kept[k - 1];
    }
    forall k | h < k < |rows| && |rows[k].cells| == |rows[h].cells| ensures rows[k] in r {
      assert rows[k] == data[k - h - 1];
      assert rows[k] in kept;
    }
  }

  /** The rows after the header keep their document order. */
  lemma StatTableRowsInOrder(t: Table, skipRow: bool)
    requires StatTableRows(t, skipRow).Ok?
    ensures var rows := ParseTableRows(t);
      IsSubseq(StatTableRows(t, skipRow).value[1..], rows[HeaderAt(skipRow) + 1..])
  {
    var rows := ParseTableRows(t);
    var h := HeaderAt(skipRow);
    var r := StatTableRows(t, skipRow).value;
    assert r[1..] == SameWidth(rows[h + 1..], |rows[h].cells|);
    SameWidthSubseq(rows[h + 1..], |rows[h].cells|);
  }

  method ParseStatTableRows(t: Table, skipRow: bool) returns (r: Result<seq<Row>>)
    ensures r == StatTableRows(t, skipRow)
  {
    var cleanRows := ParseTableRows(t);
    var h := HeaderAt(skipRow);
    if |cleanRows| <= h {
      return Err(IndexError);
    }
    var headerRow := cleanRows[h];
    var dataRows := cleanRows[h + 1..];
    var sameWidth := SameWidthLoop(dataRows, |headerRow.cells|);
    return Ok([headerRow] + sameWidth);
  }

  /** The loop of `parse_stat_table_rows` that appends each data row as wide as the
      header. */
  method SameWidthLoop(dataRows: seq<Row>, numHeaders: nat) returns (kept: seq<Row>)
    ensures kept == SameWidth(dataRows, numHeaders)
  {
    kept := [];
    var i := 0;
    while i < |dataRows|
      invariant 0 <= i <= |dataRows|
      invariant kept == SameWidth(dataRows[..i], numHeaders)
    {
      assert dataRows[..i + 1][..i] == dataRows[..i];
      if |dataRows[i].cells| == numHeaders {
        kept := kept + [dataRows[i]];
      }
      i := i + 1;
    }
    assert dataRows[..i] == dataRows;
  }

  // ---------------------------------------------------------------- stat table data

  /** The rows of exactly `w` cells, in order. */
  function KeepWidth(rows: seq<seq<string>>, w: nat): (r: seq<seq<string>>)
    ensures |r| <= |rows|
    ensures forall k :: 0 <= k < |r| ==> |r[k]| == w && r[k] in rows
    ensures forall k :: 0 <= k < |rows| && |rows[k]| == w ==> rows[k] in r
    ensures |rows| > 0 && |rows[0]| == w ==> |r| > 0 && r[0] == rows[0]
  {
    if |rows| == 0 then []
    else
      var p := KeepWidth(rows[..|rows| - 1], w);
      var last := rows[|rows| - 1];
      assert rows == rows[..|rows| - 1] + [last];
      if |last| == w then p + [last] else p
  }

  /** The loop that collects the positions of rows whose length differs from the
      first row's, and the comprehension that leaves them out. */
  method DropUnevenRows(rows: seq<seq<string>>) returns (r: seq<seq<string>>)
    requires |rows| > 0
    ensures r == KeepWidth(rows, |rows[0]|)
  {
    var headerLen := |rows[0]|;
    var drop: set<nat> := {};
    var i := 0;
    while i < |rows|
      invariant 0 <= i <= |rows|
      invariant forall j :: j in drop <==> 0 <= j < i && |rows[j]| != headerLen
    {
      if |rows[i]| != headerLen {
        drop := drop + {i};
      }
      i := i + 1;
    }
    r := [];
    var j := 0;
    while j < |rows|
      invariant 0 <= j <= |rows|
      invariant r == KeepWidth(rows[..j], headerLen)
    {
      assert rows[..j + 1][..j] == rows[..j];
      if j !in drop {
        r := r + [rows[j]];
      }
      j := j + 1;
    }
    assert rows[..j] == rows;
  }

  /** The rows `parse_stat_table_data` hands to `convert_row_data_to_dict`: the stat
      rows' cells, less the trailing rows to drop (the totals rows when
      `excludeTotals`), less every row whose length differs from the first one's. */
  function StatRowsKept(t: Table, skipRow: bool, dropRows: int, excludeTotals: bool): (r: Result<seq<seq<string>>>)
    ensures r.Ok? ==> |r.value| > 0 && forall k :: 0 <= k < |r.value| ==> |r.value[k]| == |r.value[0]|
  {
    var rows :- StatTableRows(t, skipRow);
    var data := RowData(rows);
    var drop :- if excludeTotals then TotalsRows(data) else Ok(dropRows);
    var kept := if drop > 0 then Slice(data, 0, -drop) else data;
    if |kept| == 0 then Err(IndexError)
    else Ok(KeepWidth(kept, |kept[0]|))
  }

  /** `parse_stat_table_data` */
  function StatTableData(t: Table, skipRow: bool, dropRows: int, excludeTotals: bool): Result<Dict<Value>> {
    var rows :- StatRowsKept(t, skipRow, dropRows, excludeTotals);
    ConvertRowDataToDict(rows)
  }

  /** The parsed stat table is rectangular: every column has one entry per kept data
      row, and when the cleaned headers are distinct and there is a data row, every
      header of the first row is a key, in order, so no column is cut short. */
  lemma StatTableDataRectangular(t: Table, skipRow: bool, dropRows: int, excludeTotals: bool)
    requires StatTableData(t, skipRow, dropRows, excludeTotals).Ok?
    ensures var rows := StatRowsKept(t, skipRow, dropRows, excludeTotals).value;
      var d := StatTableData(t, skipRow, dropRows, excludeTotals).value;
      && ColumnsOfLength(d, |rows| - 1)
      && (|rows| > 1 && Distinct(CleanHeaders(rows[0])) ==> Keys(d) == CleanHeaders(rows[0]))
  {
    RectangularRowsDict(StatRowsKept(t, skipRow, dropRows, excludeTotals).value);
  }

  /** Rows of one width give a dict whose keys are all the cleaned headers, when these
      are distinct. */
  lemma RectangularRowsDict(rows: seq<seq<string>>)
    requires |rows| > 0 && forall k :: 0 <= k < |rows| ==> |rows[k]| == |rows[0]|
    ensures var d := ConvertRowDataToDict(rows).value;
      && ColumnsOfLength(d, |rows| - 1)
      && (|rows| > 1 && Distinct(CleanHeaders(rows[0])) ==> Keys(d) == CleanHeaders(rows[0]))
  {
    if |rows| > 1 {
      var headers := CleanHeaders(rows[0]);
      var data := rows[1..];
      var n := Width(headers, data);
      assert forall k :: 0 <= k < |data| ==> |data[k]| == |headers|;
      WidthIsShortest(headers, data);
      assert n == |headers|;
      assert headers[..n] == headers;
    }
  }

  /** `get_all_items_from_stat_table_urls` */
  function StatTableItems(t: Table, patterns: seq<Matcher>, skipRow: bool): Result<seq<string>> {
    var rows :- StatTableRows(t, skipRow);
    ItemsOf(rows, patterns)
  }

  method GetAllItemsFromStatTableUrls(t: Table, patterns: seq<Matcher>, skipRow: bool) returns (r: Result<seq<string>>)
    ensures r == StatTableItems(t, patterns, skipRow)
  {
    var rows := ParseStatTableRows(t, skipRow);
    if rows.Err? {
      return Err(rows.error);
    }
    r := ItemsFromRows(rows.value, patterns);
  }

  /** With at least one pattern the items never fail once the rows are read, and there
      is at most one per kept row (header included). */
  lemma StatTableItemsBound(t: Table, patterns: seq<Matcher>, skipRow: bool)
    requires |patterns| > 0 && StatTableRows(t, skipRow).Ok?
    ensures StatTableItems(t, patterns, skipRow).Ok?
    ensures |StatTableItems(t, patterns, skipRow).value| <= |StatTableRows(t, skipRow).value|
  {
  }

  // ---------------------------------------------------------------- scalar cleaners

  /** `clean_player_position`: the comma-separated positions as a list when there is
      more than one, the text itself otherwise. */
  function CleanPlayerPosition(x: Value): (r: Result<Value>)
    ensures r.Ok? <==> x.Str?
    ensures r.Err? ==> r.error == AttributeError
    ensures x.Str? && ',' !in x.s ==> r == Ok(x)
    ensures x.Str? && ',' in x.s ==> r == Ok(List(Strs(Split(x.s, ','))))
  {
    var s :- AsStr(x);
    SplitCount(s, ',');
    var parts := Split(s, ',');
    if |parts| > 1 then Ok(List(Strs(parts))) else Ok(Str(s))
  }

  /** The listed positions give back the text when joined with commas. */
  lemma CleanPlayerPositionJoin(s: string)
    requires ',' in s
    ensures var r := CleanPlayerPosition(Str(s)).value;
      r.List? && |r.items| >= 2 && Join(Split(s, ','), ",") == s
  {
    SplitWithSep(s, ',');
    JoinSplit(s, ',');
  }

  /** `clean_player_age`: the text before the first '-' ("23-151" gives "23"). */
  function CleanPlayerAge(x: Value): (r: Result<Value>)
    ensures r.Ok? <==> x.Str?
    ensures r.Err? ==> r.error == AttributeError
    ensures x.Str? ==> r == Ok(Str(x.s[..IndexOfAny(x.s, '-', '-')]))
  {
    var s :- AsStr(x);
    var parts := Split(s, '-');
    SplitFirst(s, '-');
    if |parts| > 1 then Ok(Str(parts[0]))
    else
      SplitWithoutSepInverse(s, '-');
      assert s[..|s|] == s;
      Ok(Str(s))
  }

  /** Text that splits into one field has no separator. */
  lemma SplitWithoutSepInverse(s: string, c: char)
    requires |Split(s, c)| == 1
    ensures c !in s && IndexOfAny(s, c, c) == |s|
  {
    if c in s {
      SplitWithSep(s, c);
    }
  }

  /** `clean_player_min`: every thousands separator removed ("1,234" gives "1234"). */
  function CleanPlayerMin(x: Value): (r: Result<Value>)
    ensures r.Ok? <==> x.Str?
    ensures r.Err? ==> r.error == AttributeError
    ensures r.Ok? ==> r.value.Str? && ',' !in r.value.s && |r.value.s| <= |x.s|
    ensures x.Str? && ',' !in x.s ==> r == Ok(x)
  {
    var s :- AsStr(x);
    RemoveCommas(s);
    Ok(Str(ReplaceAll(s, ",", "")))
  }

  lemma RemoveCommas(s: string)
    ensures var r := ReplaceAll(s, ",", "");
      ',' !in r && |r| <= |s| && (',' !in s ==> r == s)
  {
    ReplaceOneChar(s, ',', "");
    MapCharRemoves(s, ',');
    if ',' !in s {
      MapCharKeepsOthers(s, ',', "");
    }
  }

  /** A text splits into several fields exactly when it has the separator. */
  lemma SplitCount(s: string, c: char)
    ensures c in s <==> |Split(s, c)| > 1
    ensures c !in s ==> Split(s, c) == [s]
  {
    if c in s { SplitWithSep(s, c); } else { SplitWithoutSep(s, c); }
  }

  /** The cleaners `clean_stat_dict_columns` maps column names to. `clean_team_name` and
      `clean_gf_ga` start with `re.findall`, which raises TypeError on a non-string. */
  datatype ColumnCleaner = Position | Age | Minutes | TeamName | GoalsForAgainst

  function ApplyCleaner(c: ColumnCleaner, x: Value): (r: Result<Value>)
    ensures r.Ok? <==> x.Str?
    ensures r.Ok? && c != Position ==> r.value.Str?
  {
    match c
    case Position => CleanPlayerPosition(x)
    case Age => CleanPlayerAge(x)
    case Minutes => CleanPlayerMin(x)
    case TeamName => if x.Str? then Ok(Str(CleanTeamName(x.s))) else Err(TypeError)
    case GoalsForAgainst => if x.Str? then Ok(Str(CleanGfGa(x.s))) else Err(TypeError)
  }

  /** The columns of the fixed `cleaning_map`, in its order. */
  const CleaningColumns: seq<string> :=
    ["positions", "age", "min", "opponent", "squad", "gf", "ga", "team_name"]

  /** The cleaner `cleaning_map` gives a column. */
  function CleanerOf(column: string): (r: Option<ColumnCleaner>)
    ensures r.Some? <==> column in CleaningColumns
  {
    if column == "positions" then Some(Position)
    else if column == "age" then Some(Age)
    else if column == "min" then Some(Minutes)
    else if column == "opponent" || column == "squad" || column == "team_name" then Some(TeamName)
    else if column == "gf" || column == "ga" then Some(GoalsForAgainst)
    else None
  }

  /** `[method(x) for x in column]` */
  function CleanColumn(c: ColumnCleaner, v: Value): Result<Value> {
    MapOver(v, x => ApplyCleaner(c, x))
  }

  /** Columns that have a cleaner. */
  predicate Cleanable(cols: seq<string>) {
    forall i :: 0 <= i < |cols| ==> CleanerOf(cols[i]).Some?
  }

  /** One entry of the cleaning map: the column is cleaned when present. */
  function CleanColumnStep(p: Dict<Value>, column: string): Result<Dict<Value>>
    requires CleanerOf(column).Some?
  {
    if Has(p, column) then
      var v :- CleanColumn(CleanerOf(column).value, Get(p, column).value);
      Ok(SetItem(p, column, v))
    else Ok(p)
  }

  /** The entries `cols` of the cleaning map applied to `d` in order. */
  function CleanColumnsOver(d: Dict<Value>, cols: seq<string>): Result<Dict<Value>>
    requires Cleanable(cols)
  {
    if |cols| == 0 then Ok(d)
    else
      var p :- CleanColumnsOver(d, cols[..|cols| - 1]);
      CleanColumnStep(p, cols[|cols| - 1])
  }

  function CleanedColumns(d: Dict<Value>): Result<Dict<Value>> {
    CleanColumnsOver(d, CleaningColumns)
  }

  method CleanStatDictColumns(d: Dict<Value>) returns (r: Result<Dict<Value>>)
    ensures r == CleanedColumns(d)
  {
    var cur := d;
    var k := 0;
    while k < |CleaningColumns|
      invariant 0 <= k <= |CleaningColumns|
      invariant CleanColumnsOver(d, CleaningColumns[..k]) == Ok(cur)
    {
      var column := CleaningColumns[k];
      CleanColumnsOverSnoc(d, CleaningColumns, k);
      if Has(cur, column) {
        var v := CleanColumn(CleanerOf(column).value, Get(cur, column).value);
        if v.Err? {
          assert CleanColumnStep(cur, column) == Err(v.error);
          CleanColumnsErrorAt(d, CleaningColumns, k, cur);
          return Err(v.error);
        }
        cur := SetItem(cur, column, v.value);
      }
      k := k + 1;
    }
    assert CleaningColumns[..k] == CleaningColumns;
    return Ok(cur);
  }

  /** The first `k + 1` entries are the first `k` and then entry `k`. */
  lemma CleanColumnsOverSnoc(d: Dict<Value>, cols: seq<string>, k: nat)
    requires k < |cols| && Cleanable(cols)
    ensures Cleanable(cols[..k]) && Cleanable(cols[..k + 1])
    ensures CleanColumnsOver(d, cols[..k]).Err? ==> CleanColumnsOver(d, cols[..k + 1]) == CleanColumnsOver(d, cols[..k])
    ensures CleanColumnsOver(d, cols[..k]).Ok? ==>
      CleanColumnsOver(d, cols[..k + 1]) == CleanColumnStep(CleanColumnsOver(d, cols[..k]).value, cols[k])
  {
    assert cols[..k + 1][..k] == cols[..k];
  }

  /** An entry that fails decides the result. */
  lemma CleanColumnsErrorAt(d: Dict<Value>, cols: seq<string>, k: nat, cur: Dict<Value>)
    requires k < |cols| && Cleanable(cols) && CleanColumnsOver(d, cols[..k]) == Ok(cur)
    requires CleanColumnStep(cur, cols[k]).Err?
    ensures CleanColumnsOver(d, cols) == CleanColumnStep(cur, cols[k])
  {
    CleanColumnsOverSnoc(d, cols, k);
    CleanColumnsFails(d, cols, k + 1, |cols|);
    assert cols[..|cols|] == cols;
  }

  /** Once an entry fails, the later entries are not applied. */
  lemma {:induction false} CleanColumnsFails(d: Dict<Value>, cols: seq<string>, k: nat, m: nat)
    requires k <= m <= |cols| && Cleanable(cols) && CleanColumnsOver(d, cols[..k]).Err?
    ensures CleanColumnsOver(d, cols[..m]) == CleanColumnsOver(d, cols[..k])
    decreases m
  {
    if k < m {
      CleanColumnsFails(d, cols, k, m - 1);
      CleanColumnsErrSnoc(d, cols, m - 1);
    }
  }

  /** A failed prefix stays failed one entry further. */
  lemma CleanColumnsErrSnoc(d: Dict<Value>, cols: seq<string>, k: nat)
    requires k < |cols| && Cleanable(cols) && CleanColumnsOver(d, cols[..k]).Err?
    ensures CleanColumnsOver(d, cols[..k + 1]) == CleanColumnsOver(d, cols[..k])
  {
    assert cols[..k + 1][..k] == cols[..k];
  }

  /** One entry keeps the keys, cleans its own column when present and leaves the
      others alone. */
  lemma GetCleanColumnStep(p: Dict<Value>, col: string, r: Dict<Value>, column: string)
    requires CleanerOf(col).Some? && CleanColumnStep(p, col) == Ok(r)
    ensures Keys(r) == Keys(p)
    ensures if Has(p, column) && column == col then
        Get(r, column).Some? && Ok(Get(r, column).value) == CleanColumn(CleanerOf(column).value, Get(p, column).value)
      else Get(r, column) == Get(p, column)
  {
    if Has(p, col) {
      GetSetItem(p, col, Get(r, col).value, column);
    }
  }

  /** After the entries `cols`, named once each: the keys are unchanged, a visited
      column present in `d` holds its cleaned version, and every other column is
      unchanged. */
  lemma {:induction false} GetCleanColumnsOver(d: Dict<Value>, cols: seq<string>, column: string)
    requires Cleanable(cols) && Distinct(cols) && CleanColumnsOver(d, cols).Ok?
    ensures Keys(CleanColumnsOver(d, cols).value) == Keys(d)
    ensures var r := CleanColumnsOver(d, cols).value;
      if Has(d, column) && column in cols then
        Get(r, column).Some? && Ok(Get(r, column).value) == CleanColumn(CleanerOf(column).value, Get(d, column).value)
      else Get(r, column) == Get(d, column)
  {
    if |cols| > 0 {
      var init := cols[..|cols| - 1];
      var col := cols[|cols| - 1];
      assert Distinct(init) && col !in init;
      assert cols == init + [col];
      GetCleanColumnsOver(d, init, column);
      GetCleanColumnStep(CleanColumnsOver(d, init).value, col, CleanColumnsOver(d, cols).value, column);
    }
  }

  /** `clean_stat_dict_columns`: same keys in the same order; a column named in the map
      is cleaned item by item and keeps its length; every other column is unchanged. */
  lemma GetCleanedColumns(d: Dict<Value>, column: string)
    requires CleanedColumns(d).Ok?
    ensures Keys(CleanedColumns(d).value) == Keys(d)
    ensures column !in CleaningColumns ==> Get(CleanedColumns(d).value, column) == Get(d, column)
    ensures column in CleaningColumns && Has(d, column) ==>
      var v := Get(CleanedColumns(d).value, column);
      && v.Some? && Ok(v.value) == CleanColumn(CleanerOf(column).value, Get(d, column).value)
      && v.value.List? && |v.value.items| == |Iterate(Get(d, column).value).value|
  {
    GetCleanColumnsOver(d, CleaningColumns, column);
  }

  // ---------------------------------------------------------------- column map

  /** The column map entry of one stat id. */
  datatype CategoryMap = CategoryMap(
    dropColumns: seq<string>,
    nameMapping: Dict<string>,
    finalOrder: seq<string>,
    intColumns: seq<string>,
    floatColumns: seq<string>)

  /** The column map of one scraper: per mode, an entry per stat id, and the
      `meta_data` field list of the advanced mode. */
  datatype ColumnMap = ColumnMap(advanced: Dict<CategoryMap>, nonAdvanced: Dict<CategoryMap>, metaData: seq<string>)

  /** `get_adv_or_nadv_cmap`: the advanced map exactly when there are more categories
      than the threshold. */
  function GetAdvOrNadvCmap(categoryCount: nat, threshold: int, cm: ColumnMap): (r: Dict<CategoryMap>)
    ensures categoryCount > threshold ==> r == cm.advanced
    ensures categoryCount <= threshold ==> r == cm.nonAdvanced
  {
    if categoryCount > threshold then cm.advanced else cm.nonAdvanced
  }

  /** `delete_sub_stat_dict_keys` */
  function DeleteSubStatDictKeys(d: Dict<Value>, statId: string, cmap: Dict<CategoryMap>): (r: Result<Dict<Value>>)
    ensures r.Err? <==> !Has(cmap, statId)
    ensures r.Err? ==> r.error == KeyError
  {
    var c :- Lookup(cmap, statId);
    Ok(DeleteAll(d, c.dropColumns))
  }

  /** The renames of `change_name_sub_stat_dict_keys` for the first `m` of `keys`. */
  function RenameKeys(d: Dict<Value>, keys: seq<string>, mapping: Dict<string>): Result<Dict<Value>> {
    if |keys| == 0 then Ok(d)
    else
      var p :- RenameKeys(d, keys[..|keys| - 1], mapping);
      var k := keys[|keys| - 1];
      if Has(mapping, k) then RenameDictKey(p, k, Get(mapping, k).value) else Ok(p)
  }

  /** `change_name_sub_stat_dict_keys`: the renames over a snapshot of the keys. */
  function ChangeNameSubStatDictKeys(d: Dict<Value>, statId: string, cmap: Dict<CategoryMap>): (r: Result<Dict<Value>>)
    ensures r.Err? <==> !Has(cmap, statId)
    ensures r.Err? ==> r.error == KeyError
  {
    var c :- Lookup(cmap, statId);
    RenameKeysNeverFail(d, c.nameMapping, |d|);
    assert Keys(d)[..|d|] == Keys(d);
    RenameKeys(d, Keys(d), c.nameMapping)
  }

  /** The target of a mapped key. */
  function Target(mapping: Dict<string>, k: string): string
    requires Has(mapping, k)
  {
    Get(mapping, k).value
  }

  /** Every key still to be visited is present, so no rename raises KeyError. */
  lemma {:induction false} RenameKeysNeverFail(d: Dict<Value>, mapping: Dict<string>, m: nat)
    requires m <= |d|
    ensures RenameKeys(d, Keys(d)[..m], mapping).Ok?
    ensures forall j :: m <= j < |d| ==> Has(RenameKeys(d, Keys(d)[..m], mapping).value, d[j].0)
  {
    if m == 0 {
      assert Keys(d)[..0] == [];
      forall j | 0 <= j < |d| ensures Has(d, d[j].0) { assert Keys(d)[j] == d[j].0; }
    } else {
      var m': nat := m - 1;
      RenameKeysNeverFail(d, mapping, m');
      assert Keys(d)[..m][..m'] == Keys(d)[..m'];
      var p := RenameKeys(d, Keys(d)[..m'], mapping).value;
      var k := d[m'].0;
      if Has(mapping, k) {
        forall j | m <= j < |d| ensures Has(RenameKeys(d, Keys(d)[..m], mapping).value, d[j].0) {
          assert d[j].0 != k;
          GetRenameDictKey(p, k, Target(mapping, k), d[j].0);
        }
      }
    }
  }

  /** No target of the mapping is a key of `d`. */
  ghost predicate NoClash(d: Dict<Value>, mapping: Dict<string>) {
    forall k :: Has(d, k) && Has(mapping, k) ==> !Has(d, Target(mapping, k))
  }

  /** Distinct mapped keys of `d` have distinct targets. */
  ghost predicate Injective(d: Dict<Value>, mapping: Dict<string>) {
    forall k, k' :: Has(d, k) && Has(d, k') && Has(mapping, k) && Has(mapping, k') && k != k' ==>
      Target(mapping, k) != Target(mapping, k')
  }

  /** The renames after `m` keys: a visited mapped key holds nothing and its target
      holds its value; every other key of `d` keeps its value. */
  lemma {:induction false} GetRenameKeys(d: Dict<Value>, mapping: Dict<string>, m: nat)
    requires m <= |d| && NoClash(d, mapping) && Injective(d, mapping)
    ensures RenameKeys(d, Keys(d)[..m], mapping).Ok?
    ensures var r := RenameKeys(d, Keys(d)[..m], mapping).value;
      && (forall j :: 0 <= j < m && Has(mapping, d[j].0) ==>
            !Has(r, d[j].0) && Get(r, Target(mapping, d[j].0)) == Some(d[j].1))
      && (forall j :: 0 <= j < |d| && (j >= m || !Has(mapping, d[j].0)) ==> Get(r, d[j].0) == Some(d[j].1))
  {
    RenameKeysNeverFail(d, mapping, m);
    if m == 0 {
      assert Keys(d)[..0] == [];
      forall j | 0 <= j < |d| ensures Get(d, d[j].0) == Some(d[j].1) { KeyAt(d, j); }
    } else {
      var m': nat := m - 1;
      GetRenameKeys(d, mapping, m');
      RenameKeysSnoc(d, mapping, m);
      var p := RenameKeys(d, Keys(d)[..m'], mapping).value;
      var k := d[m'].0;
      KeyAt(d, m');
      if Has(mapping, k) {
        RenameStep(d, mapping, m, p);
      }
    }
  }

  /** The renames of the first `m` keys: those of the first `m - 1`, then key `m - 1`. */
  lemma RenameKeysSnoc(d: Dict<Value>, mapping: Dict<string>, m: nat)
    requires 0 < m <= |d| && RenameKeys(d, Keys(d)[..m - 1], mapping).Ok?
    ensures var p := RenameKeys(d, Keys(d)[..m - 1], mapping).value;
      var k := d[m - 1].0;
      RenameKeys(d, Keys(d)[..m], mapping) ==
        if Has(mapping, k) then RenameDictKey(p, k, Target(mapping, k)) else Ok(p)
  {
    assert Keys(d)[..m][..m - 1] == Keys(d)[..m - 1];
    assert Keys(d)[..m][m - 1] == d[m - 1].0;
  }

  /** One step of `GetRenameKeys`: renaming the mapped key at position `m - 1`. */
  lemma RenameStep(d: Dict<Value>, mapping: Dict<string>, m: nat, p: Dict<Value>)
    requires 0 < m <= |d| && NoClash(d, mapping) && Injective(d, mapping)
    requires Has(mapping, d[m - 1].0) && Has(p, d[m - 1].0)
    requires forall j :: 0 <= j < m - 1 && Has(mapping, d[j].0) ==>
      !Has(p, d[j].0) && Get(p, Target(mapping, d[j].0)) == Some(d[j].1)
    requires forall j :: 0 <= j < |d| && (j >= m - 1 || !Has(mapping, d[j].0)) ==> Get(p, d[j].0) == Some(d[j].1)
    ensures var r := RenameDictKey(p, d[m - 1].0, Target(mapping, d[m - 1].0)).value;
      && (forall j :: 0 <= j < m && Has(mapping, d[j].0) ==>
            !Has(r, d[j].0) && Get(r, Target(mapping, d[j].0)) == Some(d[j].1))
      && (forall j :: 0 <= j < |d| && (j >= m || !Has(mapping, d[j].0)) ==> Get(r, d[j].0) == Some(d[j].1))
  {
    forall j | 0 <= j < m && Has(mapping, d[j].0)
      ensures var r := RenameDictKey(p, d[m - 1].0, Target(mapping, d[m - 1].0)).value;
        !Has(r, d[j].0) && Get(r, Target(mapping, d[j].0)) == Some(d[j].1)
    {
      RenameStepMoved(d, mapping, m, p, j);
    }
    forall j | 0 <= j < |d| && (j >= m || !Has(mapping, d[j].0))
      ensures Get(RenameDictKey(p, d[m - 1].0, Target(mapping, d[m - 1].0)).value, d[j].0) == Some(d[j].1)
    {
      RenameStepKept(d, mapping, m, p, j);
    }
  }

  /** A mapped key at position `j < m` has moved to its target. */
  lemma RenameStepMoved(d: Dict<Value>, mapping: Dict<string>, m: nat, p: Dict<Value>, j: nat)
    requires 0 < m <= |d| && NoClash(d, mapping) && Injective(d, mapping)
    requires Has(mapping, d[m - 1].0) && Has(p, d[m - 1].0)
    requires j < m && Has(mapping, d[j].0)
    requires j < m - 1 ==> !Has(p, d[j].0) && Get(p, Target(mapping, d[j].0)) == Some(d[j].1)
    requires Get(p, d[m - 1].0) == Some(d[m - 1].1)
    ensures var r := RenameDictKey(p, d[m - 1].0, Target(mapping, d[m - 1].0)).value;
      !Has(r, d[j].0) && Get(r, Target(mapping, d[j].0)) == Some(d[j].1)
  {
    var k := d[m - 1].0;
    var t := Target(mapping, k);
    KeyAt(d, m - 1);
    KeyAt(d, j);
    var tj := Target(mapping, d[j].0);
    assert !Has(d, t) && !Has(d, tj);
    if j < m - 1 {
      assert d[j].0 != k;
      assert tj != t;
      RenameMovedEarlier(p, k, t, d[j].0, tj, d[j].1);
    } else {
      RenameMovedLast(p, k, t, d[j].1);
    }
  }

  /** Renaming `k` to `t` leaves a key renamed earlier, from `kj` to `tj`, at `tj`. */
  lemma RenameMovedEarlier<V>(p: Dict<V>, k: string, t: string, kj: string, tj: string, v: V)
    requires Has(p, k) && kj != k && kj != t && tj != t && tj != k
    requires !Has(p, kj) && Get(p, tj) == Some(v)
    ensures var r := RenameDictKey(p, k, t).value;
      !Has(r, kj) && Get(r, tj) == Some(v)
  {
    GetRenameDictKey(p, k, t, kj);
    GetRenameDictKey(p, k, t, tj);
  }

  /** Renaming `k` to a different `t` moves its value there. */
  lemma RenameMovedLast<V>(p: Dict<V>, k: string, t: string, v: V)
    requires Get(p, k) == Some(v) && k != t
    ensures var r := RenameDictKey(p, k, t).value;
      !Has(r, k) && Get(r, t) == Some(v)
  {
    GetRenameDictKey(p, k, t, k);
    GetRenameDictKey(p, k, t, t);
  }

  /** A key of `d` not yet renamed keeps its value. */
  lemma RenameStepKept(d: Dict<Value>, mapping: Dict<string>, m: nat, p: Dict<Value>, j: nat)
    requires 0 < m <= |d| && NoClash(d, mapping)
    requires Has(mapping, d[m - 1].0) && Has(p, d[m - 1].0)
    requires j < |d| && (j >= m || !Has(mapping, d[j].0))
    requires Get(p, d[j].0) == Some(d[j].1)
    ensures Get(RenameDictKey(p, d[m - 1].0, Target(mapping, d[m - 1].0)).value, d[j].0) == Some(d[j].1)
  {
    var k := d[m - 1].0;
    var t := Target(mapping, k);
    KeyAt(d, m - 1);
    KeyAt(d, j);
    assert !Has(d, t);
    assert d[j].0 != k;
    GetRenameDictKey(p, k, t, d[j].0);
  }

  /** Renaming with a mapping whose targets are new and distinct: each mapped key's
      value moves to its target, the mapped key disappears, and every unmapped key
      keeps its value. */
  lemma GetChangeName(d: Dict<Value>, statId: string, cmap: Dict<CategoryMap>)
    requires Has(cmap, statId)
    requires NoClash(d, Get(cmap, statId).value.nameMapping) && Injective(d, Get(cmap, statId).value.nameMapping)
    ensures var mapping := Get(cmap, statId).value.nameMapping;
      var r := ChangeNameSubStatDictKeys(d, statId, cmap).value;
      && (forall j :: 0 <= j < |d| && Has(mapping, d[j].0) ==>
            !Has(r, d[j].0) && Get(r, Target(mapping, d[j].0)) == Some(d[j].1))
      && (forall j :: 0 <= j < |d| && !Has(mapping, d[j].0) ==> Get(r, d[j].0) == Some(d[j].1))
  {
    assert Keys(d)[..|d|] == Keys(d);
    GetRenameKeys(d, Get(cmap, statId).value.nameMapping, |d|);
  }

  /** `change_name_sub_stat_dict_keys` as the loop over the key snapshot. */
  method RenameSubStatDictKeys(d: Dict<Value>, mapping: Dict<string>) returns (r: Dict<Value>)
    ensures Ok(r) == RenameKeys(d, Keys(d), mapping)
  {
    var originalKeys := Keys(d);
    r := d;
    var i := 0;
    while i < |originalKeys|
      invariant 0 <= i <= |originalKeys|
      invariant RenameKeys(d, originalKeys[..i], mapping) == Ok(r)
    {
      var key := originalKeys[i];
      RenameKeysNeverFail(d, mapping, i + 1);
      RenameKeysSnoc(d, mapping, i + 1);
      if Has(mapping, key) {
        r := RenameDictKey(r, key, Get(mapping, key).value).value;
      }
      i := i + 1;
    }
    assert originalKeys[..i] == originalKeys;
  }

  /** `reorder_sub_stat_dict_keys`: the projection onto the final order. */
  function ReorderSubStatDictKeys(d: Dict<Value>, statId: string, cmap: Dict<CategoryMap>): (r: Result<Dict<Value>>)
    ensures r.Err? <==> !Has(cmap, statId)
    ensures r.Ok? ==> IsSubseq(Keys(r.value), Get(cmap, statId).value.finalOrder)
  {
    var c :- Lookup(cmap, statId);
    ProjectKeysSubseq(d, c.finalOrder);
    Ok(Project(d, c.finalOrder))
  }

  /** `convert_sub_stat_dict_keys_dtypes` */
  function ConvertSubStatDictKeysDtypes(d: Dict<Value>, statId: string, cmap: Dict<CategoryMap>): (r: Result<Dict<Value>>)
    ensures !Has(cmap, statId) ==> r == Err(KeyError)
    ensures r.Ok? ==> Keys(r.value) == Keys(d)
  {
    var c :- Lookup(cmap, statId);
    ConvertedDtypes(d, c.intColumns, c.floatColumns)
  }

  /** `delete_rename_order_convert_sub_stat_dict`: the four steps, in this order. */
  function DeleteRenameOrderConvert(d: Dict<Value>, statId: string, cmap: Dict<CategoryMap>): Result<Dict<Value>> {
    if !Has(cmap, statId) then Err(KeyError)
    else
      var deleted := DeleteSubStatDictKeys(d, statId, cmap).value;
      var renamed := ChangeNameSubStatDictKeys(deleted, statId, cmap).value;
      var ordered := ReorderSubStatDictKeys(renamed, statId, cmap).value;
      ConvertSubStatDictKeysDtypes(ordered, statId, cmap)
  }

  /** The pipeline fails only on a stat id missing from the map or a column that does
      not convert. Its keys are a subsequence of the final order; a dropped column that
      no rename targets never survives; and a column of the input listed in the final
      order but in neither the drop list nor the mapping, and not a rename target, holds
      its converted original data. */
  lemma DeleteRenameOrderConvertKeys(d: Dict<Value>, statId: string, cmap: Dict<CategoryMap>, k: string)
    requires Has(cmap, statId)
    ensures DeleteRenameOrderConvert(d, statId, cmap).Err? ==>
        DeleteRenameOrderConvert(d, statId, cmap).error == ValueError
        || DeleteRenameOrderConvert(d, statId, cmap).error == TypeError
    ensures var r := DeleteRenameOrderConvert(d, statId, cmap);
      var c := Get(cmap, statId).value;
      r.Ok? ==>
        && IsSubseq(Keys(r.value), c.finalOrder)
        && ((k in c.dropColumns && (forall x :: Has(c.nameMapping, x) ==> Target(c.nameMapping, x) != k))
              ==> !Has(r.value, k))
        && ((Has(d, k) && k !in c.dropColumns && !Has(c.nameMapping, k) && k in c.finalOrder
             && (forall x :: Has(c.nameMapping, x) ==> Target(c.nameMapping, x) != k))
              ==> Has(r.value, k) && Ok(Get(r.value, k).value) == ConvertEntry(k, Get(d, k).value, c.intColumns, c.floatColumns))
  {
    var c := Get(cmap, statId).value;
    var deleted := DeleteAll(d, c.dropColumns);
    var renamed := ChangeNameSubStatDictKeys(deleted, statId, cmap).value;
    var ordered := Project(renamed, c.finalOrder);
    assert DeleteRenameOrderConvert(d, statId, cmap) == ConvertedDtypes(ordered, c.intColumns, c.floatColumns);
    ConvertedDtypesErrors(ordered, c.intColumns, c.floatColumns);
    ProjectKeysSubseq(renamed, c.finalOrder);
    if k in c.dropColumns && (forall x :: Has(c.nameMapping, x) ==> Target(c.nameMapping, x) != k) {
      DroppedStaysOut(d, c, deleted, renamed, k);
    }
    if Has(d, k) && k !in c.dropColumns && !Has(c.nameMapping, k) && k in c.finalOrder
       && (forall x :: Has(c.nameMapping, x) ==> Target(c.nameMapping, x) != k) {
      KeptIsConverted(d, c, deleted, renamed, k);
    }
  }

  /** A kept column that no rename touches reaches the conversion unchanged. */
  lemma KeptIsConverted(d: Dict<Value>, c: CategoryMap, deleted: Dict<Value>, renamed: Dict<Value>, k: string)
    requires deleted == DeleteAll(d, c.dropColumns)
    requires RenameKeys(deleted, Keys(deleted), c.nameMapping) == Ok(renamed)
    requires Has(d, k) && k !in c.dropColumns && !Has(c.nameMapping, k) && k in c.finalOrder
    requires forall x :: Has(c.nameMapping, x) ==> Target(c.nameMapping, x) != k
    ensures var r := ConvertedDtypes(Project(renamed, c.finalOrder), c.intColumns, c.floatColumns);
      r.Ok? ==> Has(r.value, k) && Ok(Get(r.value, k).value) == ConvertEntry(k, Get(d, k).value, c.intColumns, c.floatColumns)
  {
    var ordered := Project(renamed, c.finalOrder);
    GetDeleteAll(d, c.dropColumns, k);
    assert Keys(deleted)[..|deleted|] == Keys(deleted);
    RenameKeysKeeps(deleted, c.nameMapping, |deleted|, k);
    GetProject(renamed, c.finalOrder, k);
    if ConvertedDtypes(ordered, c.intColumns, c.floatColumns).Ok? {
      GetConvertedDtypes(ordered, c.intColumns, c.floatColumns, k);
    }
  }

  /** An unmapped key that no rename targets keeps its value. */
  lemma {:induction false} RenameKeysKeeps(d: Dict<Value>, mapping: Dict<string>, m: nat, k: string)
    requires m <= |d| && !Has(mapping, k)
    requires forall x :: Has(mapping, x) ==> Target(mapping, x) != k
    ensures RenameKeys(d, Keys(d)[..m], mapping).Ok? && Get(RenameKeys(d, Keys(d)[..m], mapping).value, k) == Get(d, k)
  {
    RenameKeysNeverFail(d, mapping, m);
    if m > 0 {
      var m': nat := m - 1;
      RenameKeysKeeps(d, mapping, m', k);
      RenameKeysSnoc(d, mapping, m);
      var p := RenameKeys(d, Keys(d)[..m'], mapping).value;
      var key := d[m'].0;
      if Has(mapping, key) {
        GetRenameDictKey(p, key, Target(mapping, key), k);
      }
    }
  }

  /** A dropped column that no rename brings back is absent after the projection and
      the conversion. */
  lemma DroppedStaysOut(d: Dict<Value>, c: CategoryMap, deleted: Dict<Value>, renamed: Dict<Value>, k: string)
    requires deleted == DeleteAll(d, c.dropColumns)
    requires RenameKeys(deleted, Keys(deleted), c.nameMapping) == Ok(renamed)
    requires k in c.dropColumns && forall x :: Has(c.nameMapping, x) ==> Target(c.nameMapping, x) != k
    ensures var r := ConvertedDtypes(Project(renamed, c.finalOrder), c.intColumns, c.floatColumns);
      r.Ok? ==> !Has(r.value, k)
  {
    GetDeleteAll(d, c.dropColumns, k);
    assert Keys(deleted)[..|deleted|] == Keys(deleted);
    RenameKeysAbsent(deleted, c.nameMapping, |deleted|, k);
    GetProject(renamed, c.finalOrder, k);
  }

  /** Renaming never introduces a key that is neither present nor a target. */
  lemma {:induction false} RenameKeysAbsent(d: Dict<Value>, mapping: Dict<string>, m: nat, k: string)
    requires m <= |d| && !Has(d, k)
    requires forall x :: Has(mapping, x) ==> Target(mapping, x) != k
    ensures RenameKeys(d, Keys(d)[..m], mapping).Ok? && !Has(RenameKeys(d, Keys(d)[..m], mapping).value, k)
  {
    RenameKeysNeverFail(d, mapping, m);
    if m > 0 {
      var m': nat := m - 1;
      RenameKeysAbsent(d, mapping, m', k);
      RenameKeysNeverFail(d, mapping, m');
      assert Keys(d)[..m][..m'] == Keys(d)[..m'];
      var p := RenameKeys(d, Keys(d)[..m'], mapping).value;
      var key := d[m'].0;
      if Has(mapping, key) {
        GetRenameDictKey(p, key, Target(mapping, key), k);
      }
    }
  }

  /** Conversion fails only with ValueError (text that is not a number) or TypeError
      (a value that is not text). */
  lemma ConvertedDtypesErrors(d: Dict<Value>, intKeys: seq<string>, floatKeys: seq<string>)
    ensures ConvertedDtypes(d, intKeys, floatKeys).Err? ==>
      ConvertedDtypes(d, intKeys, floatKeys).error == ValueError || ConvertedDtypes(d, intKeys, floatKeys).error == TypeError
  {
    if ConvertedDtypes(d, intKeys, floatKeys).Err? {
      MapValuesErrorAt(d, Converter(intKeys, floatKeys));
      var j :| 0 <= j < |d| && Converter(intKeys, floatKeys)(d[j].0, d[j].1) == Err(ConvertedDtypes(d, intKeys, floatKeys).error);
      ConvertEntryErrors(d[j].1, intKeys, floatKeys, d[j].0);
    }
  }

  lemma ConvertEntryErrors(v: Value, intKeys: seq<string>, floatKeys: seq<string>, k: string)
    ensures ConvertEntry(k, v, intKeys, floatKeys).Err? ==>
      ConvertEntry(k, v, intKeys, floatKeys).error == ValueError || ConvertEntry(k, v, intKeys, floatKeys).error == TypeError
  {
    if k in intKeys {
      MapOverErrors(v, ToInt);
    } else if k in floatKeys {
      MapOverErrors(v, ToFloat);
    }
  }

  lemma MapOverErrors(v: Value, f: Value -> Result<Value>)
    requires forall x :: f(x).Err? ==> f(x).error == ValueError || f(x).error == TypeError
    ensures MapOver(v, f).Err? ==> MapOver(v, f).error == ValueError || MapOver(v, f).error == TypeError
  {
    if Iterate(v).Ok? {
      MapResultErrors(Iterate(v).value, f);
    }
  }

  lemma {:induction false} MapResultErrors(xs: seq<Value>, f: Value -> Result<Value>)
    requires forall x :: f(x).Err? ==> f(x).error == ValueError || f(x).error == TypeError
    ensures MapResult(xs, f).Err? ==> MapResult(xs, f).error == ValueError || MapResult(xs, f).error == TypeError
  {
    if |xs| > 0 {
      MapResultErrors(xs[..|xs| - 1], f);
    }
  }
}
