/** What the five stat scrapers do with a dict of categories (stat id to columns)
    before reassembling it: build each category from its table and id columns, and
    clean every category in place, key by key. */
module StatCategories {
  import opened Wrappers
  import opened Dicts
  import opened Values
  import opened Patterns
  import opened FbrefScraper
  import opened StatsScraper

  /** Stat id to that category's columns. */
  type Categories = Dict<Dict<Value>>

  // ---------------------------------------------------------------- scrape step

  /** A column of ids extracted from the table's hrefs, such as `player_id` with the
      pattern `players/(\w{8})/`. */
  datatype IdColumn = IdColumn(name: string, patterns: seq<Matcher>)

  /** The id columns every player table gets: the player and the player's country. */
  function PlayerIdColumns(): seq<IdColumn> {
    [IdColumn("player_id", [UrlMatcher(PlayerId)]), IdColumn("player_country_code", [UrlMatcher(CountryCode)])]
  }

  /** `stat_dict[name] = self.get_all_items_from_stat_table_urls(table, patterns, skip_row)`
      for each id column in turn. */
  function AddIdColumns(d: Dict<Value>, t: Table, skipRow: bool, ids: seq<IdColumn>): Result<Dict<Value>> {
    if |ids| == 0 then Ok(d)
    else
      var p :- AddIdColumns(d, t, skipRow, ids[..|ids| - 1]);
      var items :- StatTableItems(t, ids[|ids| - 1].patterns, skipRow);
      Ok(SetItem(p, ids[|ids| - 1].name, List(Strs(items))))
  }

  /** One category as the scrape step builds it: the parsed stat table plus its id
      columns. */
  function StatDictOf(t: Table, skipRow: bool, dropRows: int, excludeTotals: bool, ids: seq<IdColumn>)
    : Result<Dict<Value>>
  {
    var d :- StatTableData(t, skipRow, dropRows, excludeTotals);
    AddIdColumns(d, t, skipRow, ids)
  }

  /** Each id column holds the ids extracted with its patterns (the last one wins when
      two share a name); every other column is the parsed table's. */
  lemma {:induction false} GetAddIdColumns(d: Dict<Value>, t: Table, skipRow: bool, ids: seq<IdColumn>, k: string)
    requires AddIdColumns(d, t, skipRow, ids).Ok?
    ensures Get(AddIdColumns(d, t, skipRow, ids).value, k) == IdColumnValue(d, t, skipRow, ids, k)
  {
    if |ids| > 0 {
      var pre := ids[..|ids| - 1];
      var p := AddIdColumns(d, t, skipRow, pre);
      assert p.Ok?;
      GetAddIdColumns(d, t, skipRow, pre, k);
      var items := StatTableItems(t, ids[|ids| - 1].patterns, skipRow);
      assert items.Ok?;
      GetSetItem(p.value, ids[|ids| - 1].name, List(Strs(items.value)), k);
    }
  }

  /** With two differently named id columns: each holds the ids its patterns extract,
      and every other column is the parsed table's. */
  lemma GetAddTwoIdColumns(d: Dict<Value>, t: Table, skipRow: bool, ids: seq<IdColumn>, k: string)
    requires |ids| == 2 && ids[0].name != ids[1].name
    requires AddIdColumns(d, t, skipRow, ids).Ok?
    ensures StatTableItems(t, ids[0].patterns, skipRow).Ok? && StatTableItems(t, ids[1].patterns, skipRow).Ok?
    ensures var r := AddIdColumns(d, t, skipRow, ids).value;
      Get(r, k) == if k == ids[0].name then Some(List(Strs(StatTableItems(t, ids[0].patterns, skipRow).value)))
                   else if k == ids[1].name then Some(List(Strs(StatTableItems(t, ids[1].patterns, skipRow).value)))
                   else Get(d, k)
  {
    AddTwoIdColumns(d, t, skipRow, ids);
    var v0 := List(Strs(StatTableItems(t, ids[0].patterns, skipRow).value));
    var v1 := List(Strs(StatTableItems(t, ids[1].patterns, skipRow).value));
    GetSetItem(SetItem(d, ids[0].name, v0), ids[1].name, v1, k);
    GetSetItem(d, ids[0].name, v0, k);
  }

  /** Two id columns are two assignments, in order. */
  lemma AddTwoIdColumns(d: Dict<Value>, t: Table, skipRow: bool, ids: seq<IdColumn>)
    requires |ids| == 2
    requires AddIdColumns(d, t, skipRow, ids).Ok?
    ensures StatTableItems(t, ids[0].patterns, skipRow).Ok? && StatTableItems(t, ids[1].patterns, skipRow).Ok?
    ensures AddIdColumns(d, t, skipRow, ids).value ==
      SetItem(SetItem(d, ids[0].name, List(Strs(StatTableItems(t, ids[0].patterns, skipRow).value))),
              ids[1].name, List(Strs(StatTableItems(t, ids[1].patterns, skipRow).value)))
  {
    var one := ids[..1];
    assert one[..0] == [] && one[0] == ids[0];
    assert AddIdColumns(d, t, skipRow, one).Ok?;
  }

  /** What column `k` holds after the id columns are added: the ids of the last id
      column named `k`, or the parsed table's column. */
  function IdColumnValue(d: Dict<Value>, t: Table, skipRow: bool, ids: seq<IdColumn>, k: string): Option<Value> {
    if |ids| == 0 then Get(d, k)
    else if ids[|ids| - 1].name == k then
      match StatTableItems(t, ids[|ids| - 1].patterns, skipRow)
      case Ok(items) => Some(List(Strs(items)))
      case Err(_) => None
    else IdColumnValue(d, t, skipRow, ids[..|ids| - 1], k)
  }

  /** Each table parsed into its category, as the binding loop parses it. */
  function ParseAll(tables: seq<Table>, skipRow: bool, dropRows: int, excludeTotals: bool, ids: seq<IdColumn>)
    : (r: seq<Result<Dict<Value>>>)
    ensures |r| == |tables|
    ensures forall j :: 0 <= j < |tables| ==> r[j] == StatDictOf(tables[j], skipRow, dropRows, excludeTotals, ids)
  {
    seq(|tables|, j requires 0 <= j < |tables| => StatDictOf(tables[j], skipRow, dropRows, excludeTotals, ids))
  }

  /** The first `k` iterations of `for i, table in enumerate(tables): ...;
      stats_dict[stat_ids[i]] = stat_dict`, over the parsed tables: each parse result
      is stored under the stat id at its position, which raises IndexError once the ids
      run out. */
  function BindUpTo(parsed: seq<Result<Dict<Value>>>, statIds: seq<string>, k: nat): Result<Categories>
    requires k <= |parsed|
  {
    if k == 0 then Ok([])
    else
      match BindUpTo(parsed, statIds, k - 1)
      case Err(e) => Err(e)
      case Ok(p) =>
        match parsed[k - 1]
        case Err(e) => Err(e)
        case Ok(sd) => if k - 1 < |statIds| then Ok(SetItem(p, statIds[k - 1], sd)) else Err(IndexError)
  }

  function BindTables(tables: seq<Table>, statIds: seq<string>, skipRow: bool, dropRows: int, excludeTotals: bool,
                      ids: seq<IdColumn>): Result<Categories>
  {
    var parsed := ParseAll(tables, skipRow, dropRows, excludeTotals, ids);
    BindUpTo(parsed, statIds, |parsed|)
  }

  /** Binding succeeds only when there are no more tables than stat ids and every table
      parses; with distinct stat ids, table `j` is stored under stat id `j`, in table
      order. */
  lemma {:induction false} BindUpToShape(parsed: seq<Result<Dict<Value>>>, statIds: seq<string>, k: nat)
    requires k <= |parsed| && Lists.Distinct(statIds)
    requires BindUpTo(parsed, statIds, k).Ok?
    ensures k <= |statIds|
    ensures BoundUpTo(parsed, statIds, k, BindUpTo(parsed, statIds, k).value)
  {
    if k > 0 {
      var m: nat := k - 1;
      BindUpToShape(parsed, statIds, m);
      BoundStep(parsed, statIds, m, BindUpTo(parsed, statIds, m).value);
    }
  }

  /** The first `k` tables are bound, table `j` under stat id `j`. */
  ghost predicate BoundUpTo(parsed: seq<Result<Dict<Value>>>, statIds: seq<string>, k: nat, r: Categories)
    requires k <= |parsed| && k <= |statIds|
  {
    && Keys(r) == statIds[..k]
    && forall j :: 0 <= j < k ==> parsed[j].Ok? && r[j] == (statIds[j], parsed[j].value)
  }

  /** One more table bound under a stat id not used before. */
  lemma BoundStep(parsed: seq<Result<Dict<Value>>>, statIds: seq<string>, m: nat, p: Categories)
    requires m < |parsed| && m <= |statIds| && Lists.Distinct(statIds)
    requires BoundUpTo(parsed, statIds, m, p) && BindUpTo(parsed, statIds, m) == Ok(p)
    requires BindUpTo(parsed, statIds, m + 1).Ok?
    ensures m < |statIds|
    ensures BoundUpTo(parsed, statIds, m + 1, BindUpTo(parsed, statIds, m + 1).value)
  {
    assert !Has(p, statIds[m]) by {
      assert statIds[m] !in statIds[..m];
    }
    assert statIds[..m + 1] == statIds[..m] + [statIds[m]];
    var r := BindUpTo(parsed, statIds, m + 1).value;
    assert r == p + [(statIds[m], parsed[m].value)];
    forall j | 0 <= j < m + 1 ensures parsed[j].Ok? && r[j] == (statIds[j], parsed[j].value) {
      if j < m {
        assert r[j] == p[j];
      }
    }
  }

  /** The stat tables bound to their ids. */
  lemma BindTablesShape(tables: seq<Table>, statIds: seq<string>, skipRow: bool, dropRows: int, excludeTotals: bool,
                        ids: seq<IdColumn>)
    requires Lists.Distinct(statIds)
    requires BindTables(tables, statIds, skipRow, dropRows, excludeTotals, ids).Ok?
    ensures |tables| <= |statIds|
    ensures var r := BindTables(tables, statIds, skipRow, dropRows, excludeTotals, ids).value;
      && Keys(r) == statIds[..|tables|]
      && forall j :: 0 <= j < |tables| ==>
           Ok(r[j].1) == StatDictOf(tables[j], skipRow, dropRows, excludeTotals, ids)
  {
    var parsed := ParseAll(tables, skipRow, dropRows, excludeTotals, ids);
    BindUpToShape(parsed, statIds, |parsed|);
  }

  /** `for i, stat_table in enumerate(tables)` of the league and player-season scrapers. */
  method BindStatTables(tables: seq<Table>, statIds: seq<string>, skipRow: bool, dropRows: int, excludeTotals: bool,
                        ids: seq<IdColumn>) returns (r: Result<Categories>)
    ensures r == BindTables(tables, statIds, skipRow, dropRows, excludeTotals, ids)
  {
    ghost var parsed := ParseAll(tables, skipRow, dropRows, excludeTotals, ids);
    var statsDict: Categories := [];
    var i := 0;
    while i < |tables|
      invariant 0 <= i <= |tables|
      invariant BindUpTo(parsed, statIds, i) == Ok(statsDict)
    {
      var statDict := StatDictOf(tables[i], skipRow, dropRows, excludeTotals, ids);
      BindTableStep(tables, statIds, skipRow, dropRows, excludeTotals, ids, i, statsDict);
      if statDict.Err? || i >= |statIds| {
        return if statDict.Err? then Err(statDict.error) else Err(IndexError);
      }
      statsDict := SetItem(statsDict, statIds[i], statDict.value);
      i := i + 1;
    }
    return Ok(statsDict);
  }

  /** One iteration of the binding loop, in terms of the table it parses. */
  lemma BindTableStep(tables: seq<Table>, statIds: seq<string>, skipRow: bool, dropRows: int, excludeTotals: bool,
                      ids: seq<IdColumn>, i: nat, cur: Categories)
    requires i < |tables| && BindUpTo(ParseAll(tables, skipRow, dropRows, excludeTotals, ids), statIds, i) == Ok(cur)
    ensures var sd := StatDictOf(tables[i], skipRow, dropRows, excludeTotals, ids);
      && (sd.Ok? && i < |statIds| ==>
            BindUpTo(ParseAll(tables, skipRow, dropRows, excludeTotals, ids), statIds, i + 1) == Ok(SetItem(cur, statIds[i], sd.value)))
      && (sd.Err? ==> BindTables(tables, statIds, skipRow, dropRows, excludeTotals, ids) == Err(sd.error))
      && (sd.Ok? && i >= |statIds| ==> BindTables(tables, statIds, skipRow, dropRows, excludeTotals, ids) == Err(IndexError))
  {
    BindStep(ParseAll(tables, skipRow, dropRows, excludeTotals, ids), statIds, i, cur);
  }

  /** One iteration of the binding loop: the table is stored, or the whole binding
      fails with its error. */
  lemma BindStep(parsed: seq<Result<Dict<Value>>>, statIds: seq<string>, i: nat, cur: Categories)
    requires i < |parsed| && BindUpTo(parsed, statIds, i) == Ok(cur)
    ensures parsed[i].Ok? && i < |statIds| ==>
      BindUpTo(parsed, statIds, i + 1) == Ok(SetItem(cur, statIds[i], parsed[i].value))
    ensures parsed[i].Err? ==> BindUpTo(parsed, statIds, |parsed|) == Err(parsed[i].error)
    ensures parsed[i].Ok? && i >= |statIds| ==> BindUpTo(parsed, statIds, |parsed|) == Err(IndexError)
  {
    if parsed[i].Err? || i >= |statIds| {
      BindFails(parsed, statIds, i + 1);
    }
  }

  lemma {:induction false} BindFails(parsed: seq<Result<Dict<Value>>>, statIds: seq<string>, k: nat)
    requires 0 < k <= |parsed| && BindUpTo(parsed, statIds, k).Err?
    ensures BindUpTo(parsed, statIds, |parsed|) == BindUpTo(parsed, statIds, k)
    decreases |parsed| - k
  {
    if k < |parsed| {
      var m: nat := k + 1;
      BindFails(parsed, statIds, m);
    }
  }

  // ---------------------------------------------------------------- cleaning step

  /** One category's cleaning: `clean_stat_dict_columns` and then
      `delete_rename_order_convert_sub_stat_dict`, or the pipeline first when
      `pipelineFirst` (the all-players scraper's order). */
  function CleanCategory(sub: Dict<Value>, statId: string, cmap: Dict<CategoryMap>, pipelineFirst: bool)
    : Result<Dict<Value>>
  {
    if pipelineFirst then
      var p :- DeleteRenameOrderConvert(sub, statId, cmap);
      CleanedColumns(p)
    else
      var c :- CleanedColumns(sub);
      DeleteRenameOrderConvert(c, statId, cmap)
  }

  /** A step applied to each category: stat id and columns to new columns. */
  type Step = (string, Dict<Value>) -> Result<Dict<Value>>

  /** The first `k` iterations of `for key in d.keys(): d[key] = step(key, d[key])`. */
  function UpdateUpTo(d: Categories, step: Step, k: nat): Result<Categories>
    requires k <= |d|
  {
    if k == 0 then Ok(d)
    else
      var p :- UpdateUpTo(d, step, k - 1);
      var c :- step(d[k - 1].0, d[k - 1].1);
      Ok(SetItem(p, d[k - 1].0, c))
  }

  /** Every category cleaned in place. */
  function CleanAll(d: Categories, cmap: Dict<CategoryMap>, pipelineFirst: bool): Result<Categories> {
    UpdateUpTo(d, CleanStep(cmap, pipelineFirst), |d|)
  }

  function CleanStep(cmap: Dict<CategoryMap>, pipelineFirst: bool): Step {
    (key, sub) => CleanCategory(sub, key, cmap, pipelineFirst)
  }

  /** After `k` iterations the keys keep their order, the first `k` categories hold
      their new columns and the rest are untouched; the loop gets that far exactly
      when none of the first `k` steps fails. */
  lemma {:induction false} UpdateUpToShape(d: Categories, step: Step, k: nat)
    requires k <= |d|
    ensures UpdateUpTo(d, step, k).Ok? <==> forall j :: 0 <= j < k ==> step(d[j].0, d[j].1).Ok?
    ensures UpdateUpTo(d, step, k).Ok? ==> UpdatedUpTo(d, step, k, UpdateUpTo(d, step, k).value)
  {
    if k > 0 {
      var m: nat := k - 1;
      UpdateUpToShape(d, step, m);
      var p := UpdateUpTo(d, step, m);
      if p.Ok? && step(d[m].0, d[m].1).Ok? {
        UpdatedStep(d, step, m, p.value, step(d[m].0, d[m].1).value);
      }
    }
  }

  /** `r` is `d` with the first `k` categories replaced by their steps' results. */
  ghost predicate UpdatedUpTo(d: Categories, step: Step, k: nat, r: Categories)
    requires k <= |d|
  {
    && |r| == |d|
    && (forall j :: 0 <= j < |d| ==> r[j].0 == d[j].0)
    && (forall j :: 0 <= j < k ==> step(d[j].0, d[j].1) == Ok(r[j].1))
    && (forall j :: k <= j < |d| ==> r[j] == d[j])
  }

  /** Storing the step's result for category `m` replaces it in place. */
  lemma UpdatedStep(d: Categories, step: Step, m: nat, p: Categories, c: Dict<Value>)
    requires m < |d| && UpdatedUpTo(d, step, m, p) && step(d[m].0, d[m].1) == Ok(c)
    ensures UpdatedUpTo(d, step, m + 1, SetItem(p, d[m].0, c))
  {
    assert p[m] == d[m];
    FindOfKey(p, m);
  }

  lemma {:induction false} UpdateFails(d: Categories, step: Step, k: nat)
    requires 0 < k <= |d| && UpdateUpTo(d, step, k).Err?
    ensures UpdateUpTo(d, step, |d|) == UpdateUpTo(d, step, k)
    decreases |d| - k
  {
    if k < |d| {
      var m: nat := k + 1;
      UpdateFails(d, step, m);
    }
  }

  /** The cleaning loop, reading each category from the dict as it stands. */
  method CleanCategories(d: Categories, cmap: Dict<CategoryMap>, pipelineFirst: bool) returns (r: Result<Categories>)
    ensures r == CleanAll(d, cmap, pipelineFirst)
  {
    var cur := d;
    var k := 0;
    while k < |d|
      invariant 0 <= k <= |d|
      invariant UpdateUpTo(d, CleanStep(cmap, pipelineFirst), k) == Ok(cur)
    {
      var key := d[k].0;
      CleanAt(d, cmap, pipelineFirst, k, cur);
      var sub := Get(cur, key).value;
      var c := CleanOneCategory(key, sub, cmap, pipelineFirst);
      if c.Err? {
        return Err(c.error);
      }
      cur := SetItem(cur, key, c.value);
      k := k + 1;
    }
    return Ok(cur);
  }

  /** One iteration of the cleaning loop, in terms of the category it cleans. */
  lemma CleanAt(d: Categories, cmap: Dict<CategoryMap>, pipelineFirst: bool, k: nat, cur: Categories)
    requires k < |d| && UpdateUpTo(d, CleanStep(cmap, pipelineFirst), k) == Ok(cur)
    ensures Get(cur, d[k].0) == Some(d[k].1)
    ensures var c := CleanCategory(d[k].1, d[k].0, cmap, pipelineFirst);
      && (c.Ok? ==> UpdateUpTo(d, CleanStep(cmap, pipelineFirst), k + 1) == Ok(SetItem(cur, d[k].0, c.value)))
      && (c.Err? ==> CleanAll(d, cmap, pipelineFirst) == Err(c.error))
  {
    UpdateStep(d, CleanStep(cmap, pipelineFirst), k, cur);
    if CleanCategory(d[k].1, d[k].0, cmap, pipelineFirst).Err? {
      UpdateFails(d, CleanStep(cmap, pipelineFirst), k + 1);
    }
  }

  /** The body of the cleaning loop: the column cleaners and the pipeline, in the
      scraper's order. */
  method CleanOneCategory(key: string, sub: Dict<Value>, cmap: Dict<CategoryMap>, pipelineFirst: bool)
    returns (c: Result<Dict<Value>>)
    ensures c == CleanCategory(sub, key, cmap, pipelineFirst)
  {
    if pipelineFirst {
      var p := DeleteRenameOrderConvert(sub, key, cmap);
      if p.Err? {
        return Err(p.error);
      }
      c := CleanStatDictColumns(p.value);
    } else {
      var cleaned := CleanStatDictColumns(sub);
      if cleaned.Err? {
        return Err(cleaned.error);
      }
      c := DeleteRenameOrderConvert(cleaned.value, key, cmap);
    }
  }

  /** One iteration: the category at position `k` is still the original one. */
  lemma UpdateStep(d: Categories, step: Step, k: nat, cur: Categories)
    requires k < |d| && UpdateUpTo(d, step, k) == Ok(cur)
    ensures Get(cur, d[k].0) == Some(d[k].1)
    ensures step(d[k].0, d[k].1).Ok? ==> UpdateUpTo(d, step, k + 1) == Ok(SetItem(cur, d[k].0, step(d[k].0, d[k].1).value))
    ensures step(d[k].0, d[k].1).Err? ==> UpdateUpTo(d, step, k + 1) == Err(step(d[k].0, d[k].1).error)
  {
    UpdateUpToShape(d, step, k);
    KeyAt(cur, k);
  }

  /** Cleaning every category keeps the stat ids in their order and replaces each
      category with its cleaned columns; it succeeds exactly when every category does. */
  lemma CleanAllShape(d: Categories, cmap: Dict<CategoryMap>, pipelineFirst: bool)
    ensures CleanAll(d, cmap, pipelineFirst).Ok? <==>
      forall j :: 0 <= j < |d| ==> CleanCategory(d[j].1, d[j].0, cmap, pipelineFirst).Ok?
    ensures CleanAll(d, cmap, pipelineFirst).Ok? ==>
      var r := CleanAll(d, cmap, pipelineFirst).value;
      && Keys(r) == Keys(d)
      && (forall j :: 0 <= j < |d| ==> CleanCategory(d[j].1, d[j].0, cmap, pipelineFirst) == Ok(r[j].1))
  {
    UpdateUpToShape(d, CleanStep(cmap, pipelineFirst), |d|);
  }
}
