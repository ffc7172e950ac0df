/** The loop shape shared by the five stat scrapers' reorientation methods
    (`change_tss_dict_orientation`, `change_tms_dict_orientation`,
    `change_pss_dict_orientation`, `change_pms_dict_orientation`,
    `change_apms_dict_orientation`): per-category columns are merged into one record
    per row, holding a `meta_data` map and a `stats` map with one sub-map per category.

    At row `i`, category by category and column by column:
    - a meta field is written to `meta_data`, by every category that has it, so the
      last one wins, and a failed index writes None;
    - a stats field already supplied by an earlier category is skipped;
    - otherwise the indexed value goes into that category's sub-map and the field is
      marked used, or, when indexing fails, None goes in and the field stays unused. */
module Reassembly {
  import opened Wrappers
  import opened Dicts
  import opened Values
  import opened StatCategories

  /** State of the inner loop over one category's columns. */
  datatype FieldsAcc = FieldsAcc(meta: Dict<Value>, sub: Dict<Value>, used: seq<string>)

  /** State after a prefix of the categories at one row. */
  datatype RowAcc = RowAcc(meta: Dict<Value>, stats: Dict<Value>, used: seq<string>)

  /** The inner loop over `cols` at row `i`, from the meta map and used list so far. */
  function FieldsFold(metaFields: seq<string>, i: nat, meta0: Dict<Value>, used0: seq<string>, cols: Dict<Value>)
    : FieldsAcc
  {
    if |cols| == 0 then FieldsAcc(meta0, [], used0)
    else
      var p := FieldsFold(metaFields, i, meta0, used0, Prefix(cols, |cols| - 1));
      FieldStep(metaFields, i, p, cols[|cols| - 1].0, cols[|cols| - 1].1)
  }

  /** One column `f` holding `v`: a meta field is written, a used stats field skipped,
      and any other stored (None when indexing fails) and marked used on success. */
  function FieldStep(metaFields: seq<string>, i: nat, p: FieldsAcc, f: string, v: Value): FieldsAcc {
    if f in metaFields then FieldsAcc(SetItem(p.meta, f, IndexOrNull(v, i)), p.sub, p.used)
    else if f in p.used then p
    else match IndexAt(v, i)
      case Ok(x) => FieldsAcc(p.meta, SetItem(p.sub, f, x), p.used + [f])
      case Err(_) => FieldsAcc(p.meta, SetItem(p.sub, f, Null), p.used)
  }

  /** The category loop at row `i`. Each category's sub-map is created empty before
      its columns are visited; building it first and storing it afterwards gives the
      same map. */
  function RowFold(metaFields: seq<string>, i: nat, cats: Categories): RowAcc {
    if |cats| == 0 then RowAcc([], [], [])
    else
      var p := RowFold(metaFields, i, Prefix(cats, |cats| - 1));
      RowStep(metaFields, i, p, cats[|cats| - 1].0, cats[|cats| - 1].1)
  }

  /** One category `c` with columns `cols`. */
  function RowStep(metaFields: seq<string>, i: nat, p: RowAcc, c: string, cols: Dict<Value>): RowAcc {
    var a := FieldsFold(metaFields, i, p.meta, p.used, cols);
    RowAcc(a.meta, SetItem(p.stats, c, Map(a.sub)), a.used)
  }

  /** The meta map a record carries: as built, or projected onto the meta field list
      (`reorder_dict_keys(player_dict['meta_data'], meta_data)`). */
  function MetaOut(meta: Dict<Value>, metaFields: seq<string>, projectMeta: bool): Dict<Value> {
    if projectMeta then Project(meta, metaFields) else meta
  }

  /** The record of row `i`. */
  function RowRecord(metaFields: seq<string>, projectMeta: bool, i: nat, cats: Categories): Value {
    var a := RowFold(metaFields, i, cats);
    RecordOf(MetaOut(a.meta, metaFields, projectMeta), a.stats)
  }

  /** `{'meta_data': meta, 'stats': stats}` */
  function RecordOf(meta: Dict<Value>, stats: Dict<Value>): (r: Value)
    ensures r.Map? && Keys(r.m) == ["meta_data", "stats"]
    ensures Get(r.m, "meta_data") == Some(Map(meta)) && Get(r.m, "stats") == Some(Map(stats))
  {
    var d := Pair("meta_data", Map(meta), "stats", Map(stats));
    KeyAt(d, 0);
    KeyAt(d, 1);
    Map(d)
  }

  /** The records of rows `0 .. n - 1`. */
  function Records(metaFields: seq<string>, projectMeta: bool, cats: Categories, n: nat): (r: seq<Value>)
    ensures |r| == n
    ensures forall i :: 0 <= i < n ==> r[i] == RowRecord(metaFields, projectMeta, i, cats)
  {
    Lists.Tabulate(RowRecorder(metaFields, projectMeta, cats), n)
  }

  function RowRecorder(metaFields: seq<string>, projectMeta: bool, cats: Categories): nat -> Value {
    (i: nat) => RowRecord(metaFields, projectMeta, i, cats)
  }

  /** `len(d[refCat][refField])`: KeyError for a missing category or column, TypeError
      for a column with no length. */
  function RowCount(cats: Categories, refCat: string, refField: string): (r: Result<nat>)
    ensures r.Ok? <==> (Has(cats, refCat) && Has(Get(cats, refCat).value, refField)
      && Len(Get(Get(cats, refCat).value, refField).value).Ok?)
    ensures r.Ok? ==> r.value == Len(Get(Get(cats, refCat).value, refField).value).value
  {
    var c :- Lookup(cats, refCat);
    var col :- Lookup(c, refField);
    Len(col)
  }

  /** The reorientation of one dict of categories: `{'data': records}` with one record
      per entry of the reference column. */
  function Reorient(cats: Categories, metaFields: seq<string>, refCat: string, refField: string): (r: Result<Value>)
    ensures r.Err? <==> RowCount(cats, refCat, refField).Err?
    ensures r.Ok? ==> r.value == DataOf(Records(metaFields, false, cats, RowCount(cats, refCat, refField).value))
  {
    var n :- RowCount(cats, refCat, refField);
    Ok(DataOf(Records(metaFields, false, cats, n)))
  }

  // ---------------------------------------------------------------- the loops

  /** The inner loop, over the columns of one category. */
  method MergeFields(metaFields: seq<string>, i: nat, meta0: Dict<Value>, used0: seq<string>, cols: Dict<Value>)
    returns (meta: Dict<Value>, sub: Dict<Value>, used: seq<string>)
    ensures FieldsAcc(meta, sub, used) == FieldsFold(metaFields, i, meta0, used0, cols)
  {
    meta, sub, used := meta0, [], used0;
    var j := 0;
    while j < |cols|
      invariant 0 <= j <= |cols|
      invariant FieldsAcc(meta, sub, used) == FieldsFold(metaFields, i, meta0, used0, Prefix(cols, j))
    {
      FieldsFoldSnoc(metaFields, i, meta0, used0, cols, j);
      var stat := cols[j].0;
      var column := cols[j].1;
      if stat in metaFields {
        meta := SetItem(meta, stat, IndexOrNull(column, i));
      } else if stat !in used {
        var x := IndexAt(column, i);
        if x.Ok? {
          sub := SetItem(sub, stat, x.value);
          used := used + [stat];
        } else {
          sub := SetItem(sub, stat, Null);
        }
      }
      j := j + 1;
    }
    assert cols[..j] == cols;
  }

  /** The loops of one record: over the categories, and within each over its columns. */
  method MergeRow(metaFields: seq<string>, projectMeta: bool, i: nat, cats: Categories) returns (record: Value)
    ensures record == RowRecord(metaFields, projectMeta, i, cats)
  {
    var meta: Dict<Value> := [];
    var stats: Dict<Value> := [];
    var used: seq<string> := [];
    var k := 0;
    while k < |cats|
      invariant 0 <= k <= |cats|
      invariant RowAcc(meta, stats, used) == RowFold(metaFields, i, Prefix(cats, k))
    {
      RowFoldSnoc(metaFields, i, cats, k);
      var sub;
      meta, sub, used := MergeFields(metaFields, i, meta, used, cats[k].1);
      stats := SetItem(stats, cats[k].0, Map(sub));
      k := k + 1;
    }
    assert cats[..k] == cats;
    record := RecordOf(MetaOut(meta, metaFields, projectMeta), stats);
  }

  lemma FieldsFoldSnoc(metaFields: seq<string>, i: nat, meta0: Dict<Value>, used0: seq<string>, cols: Dict<Value>, j: nat)
    requires j < |cols|
    ensures FieldsFold(metaFields, i, meta0, used0, Prefix(cols, j + 1))
      == FieldStep(metaFields, i, FieldsFold(metaFields, i, meta0, used0, Prefix(cols, j)), cols[j].0, cols[j].1)
  {
    assert cols[..j + 1][..j] == cols[..j];
  }

  lemma RowFoldSnoc(metaFields: seq<string>, i: nat, cats: Categories, k: nat)
    requires k < |cats|
    ensures RowFold(metaFields, i, Prefix(cats, k + 1)) == RowStep(metaFields, i, RowFold(metaFields, i, Prefix(cats, k)), cats[k].0, cats[k].1)
  {
    assert cats[..k + 1][..k] == cats[..k];
  }

  /** The outer loop: one record per row, in row order. */
  method MergeRows(metaFields: seq<string>, projectMeta: bool, cats: Categories, n: nat) returns (data: seq<Value>)
    ensures data == Records(metaFields, projectMeta, cats, n)
  {
    data := [];
    var i := 0;
    while i < n
      invariant 0 <= i <= n
      invariant data == Records(metaFields, projectMeta, cats, i)
    {
      var record := MergeRow(metaFields, projectMeta, i, cats);
      RecordsSnoc(metaFields, projectMeta, cats, i);
      data := data + [record];
      i := i + 1;
    }
  }

  lemma RecordsSnoc(metaFields: seq<string>, projectMeta: bool, cats: Categories, n: nat)
    ensures Records(metaFields, projectMeta, cats, n + 1)
      == Records(metaFields, projectMeta, cats, n) + [RowRecord(metaFields, projectMeta, n, cats)]
  {
    assert RowRecorder(metaFields, projectMeta, cats)(n) == RowRecord(metaFields, projectMeta, n, cats);
  }

  /** `change_stat_dict_orientation` for a scraper whose records are counted by the
      column `refField` of category `refCat`. */
  method ReorientStats(cats: Categories, metaFields: seq<string>, refCat: string, refField: string)
    returns (r: Result<Value>)
    ensures r == Reorient(cats, metaFields, refCat, refField)
  {
    var n := RowCount(cats, refCat, refField);
    if n.Err? {
      return Err(n.error);
    }
    var data := MergeRows(metaFields, false, cats, n.value);
    return Ok(DataOf(data));
  }

  // ---------------------------------------------------------------- properties

  /** Some category of `cats` has field `f` and indexing it at row `i` succeeds. */
  predicate Supplied(cats: Categories, f: string, i: nat) {
    |cats| > 0 &&
      (Supplied(Prefix(cats, |cats| - 1), f, i)
       || (Has(cats[|cats| - 1].1, f) && IndexAt(Get(cats[|cats| - 1].1, f).value, i).Ok?))
  }

  /** The value of meta field `f` at row `i` from the last category that has it. */
  function MetaValue(cats: Categories, f: string, i: nat): Option<Value> {
    if |cats| == 0 then None
    else if Has(cats[|cats| - 1].1, f) then Some(IndexOrNull(Get(cats[|cats| - 1].1, f).value, i))
    else MetaValue(Prefix(cats, |cats| - 1), f, i)
  }

  /** One category's columns: a meta field present in it takes its indexed value (None
      on failure); a stats field not yet used and present goes into the sub-map (None on
      failure) and becomes used exactly when indexing succeeds; nothing else changes. */
  lemma {:induction false} FieldsFoldGet(metaFields: seq<string>, i: nat, meta0: Dict<Value>, used0: seq<string>,
                                         cols: Dict<Value>, f: string)
    ensures var a := FieldsFold(metaFields, i, meta0, used0, cols);
      && Get(a.meta, f) == (if f in metaFields && Has(cols, f) then Some(IndexOrNull(Get(cols, f).value, i)) else Get(meta0, f))
      && Get(a.sub, f) == (if f in metaFields || f in used0 || !Has(cols, f) then None
                           else Some(IndexOrNull(Get(cols, f).value, i)))
      && (f !in metaFields ==>
            (f in a.used <==> f in used0 || (Has(cols, f) && IndexAt(Get(cols, f).value, i).Ok?)))
  {
    if |cols| > 0 {
      var pre := Prefix(cols, |cols| - 1);
      FieldsFoldGet(metaFields, i, meta0, used0, pre, f);
      GetSnoc(cols, f);
      LastKeyFresh(cols);
      var p := FieldsFold(metaFields, i, meta0, used0, pre);
      FieldStepGet(metaFields, i, p, cols[|cols| - 1].0, cols[|cols| - 1].1, f);
    }
  }

  /** One column changes only its own entry: of the meta map for a meta field, of the
      sub-map and the used list for a stats field not used yet. */
  lemma FieldStepGet(metaFields: seq<string>, i: nat, p: FieldsAcc, g: string, v: Value, f: string)
    ensures var a := FieldStep(metaFields, i, p, g, v);
      && Get(a.meta, f) == (if g == f && f in metaFields then Some(IndexOrNull(v, i)) else Get(p.meta, f))
      && Get(a.sub, f) == (if g == f && f !in metaFields && f !in p.used then Some(IndexOrNull(v, i)) else Get(p.sub, f))
      && (f in a.used <==> f in p.used || (g == f && f !in metaFields && IndexAt(v, i).Ok?))
  {
    if g in metaFields {
      GetSetItem(p.meta, g, IndexOrNull(v, i), f);
    } else if g !in p.used {
      GetSetItem(p.sub, g, IndexOrNull(v, i), f);
    }
  }

  /** The used list after a prefix of the categories holds exactly the stats fields
      that one of them supplied. */
  lemma {:induction false} RowFoldUsed(metaFields: seq<string>, i: nat, cats: Categories, f: string)
    requires f !in metaFields
    ensures f in RowFold(metaFields, i, cats).used <==> Supplied(cats, f, i)
  {
    if |cats| > 0 {
      var pre := Prefix(cats, |cats| - 1);
      RowFoldUsed(metaFields, i, pre, f);
      var p := RowFold(metaFields, i, pre);
      FieldsFoldGet(metaFields, i, p.meta, p.used, cats[|cats| - 1].1, f);
    }
  }

  /** Every record has a stats sub-map for every category, in the categories' order. */
  lemma {:induction false} RowStatsKeys(metaFields: seq<string>, i: nat, cats: Categories)
    ensures Keys(RowFold(metaFields, i, cats).stats) == Keys(cats)
  {
    if |cats| > 0 {
      var pre := Prefix(cats, |cats| - 1);
      RowStatsKeys(metaFields, i, pre);
      LastKeyFresh(cats);
    }
  }

  /** Ownership of stats fields: at row `i`, the sub-map of category `k` holds field `f`
      exactly when `f` is a stats field of that category that no earlier category
      supplied, and then it holds the indexed value, or None when indexing fails. */
  lemma {:induction false} RowStatsOwnership(metaFields: seq<string>, i: nat, cats: Categories, k: nat, f: string)
    requires k < |cats|
    ensures var s := Get(RowFold(metaFields, i, cats).stats, cats[k].0);
      && s.Some? && s.value.Map?
      && Get(s.value.m, f) == (if f in metaFields || Supplied(Prefix(cats, k), f, i) || !Has(cats[k].1, f) then None
                               else Some(IndexOrNull(Get(cats[k].1, f).value, i)))
  {
    var pre := Prefix(cats, |cats| - 1);
    var p := RowFold(metaFields, i, pre);
    var c := cats[|cats| - 1].0;
    var a := FieldsFold(metaFields, i, p.meta, p.used, cats[|cats| - 1].1);
    if k == |cats| - 1 {
      GetSetItem(p.stats, c, Map(a.sub), c);
      FieldsFoldGet(metaFields, i, p.meta, p.used, cats[k].1, f);
      assert pre == cats[..k];
      if f !in metaFields {
        RowFoldUsed(metaFields, i, pre, f);
      }
    } else {
      RowStatsOwnership(metaFields, i, pre, k, f);
      assert pre[..k] == cats[..k];
      assert cats[k].0 != c;
      GetSetItem(p.stats, c, Map(a.sub), cats[k].0);
    }
  }

  /** Meta fields are last-writer-wins: the meta map holds a meta field with the value
      from the last category that has it (None when its index fails), and no other field. */
  lemma {:induction false} RowMetaLastWriter(metaFields: seq<string>, i: nat, cats: Categories, f: string)
    ensures Get(RowFold(metaFields, i, cats).meta, f) == if f in metaFields then MetaValue(cats, f, i) else None
  {
    if |cats| > 0 {
      var pre := Prefix(cats, |cats| - 1);
      RowMetaLastWriter(metaFields, i, pre, f);
      var p := RowFold(metaFields, i, pre);
      FieldsFoldGet(metaFields, i, p.meta, p.used, cats[|cats| - 1].1, f);
    }
  }

  /** A stats field that a category supplies successfully at row `i` appears with a
      value in exactly one category's sub-map: the first that supplies it. */
  lemma SuppliedOnce(metaFields: seq<string>, i: nat, cats: Categories, k: nat, k': nat, f: string)
    requires k < k' < |cats| && f !in metaFields
    requires Has(cats[k].1, f) && IndexAt(Get(cats[k].1, f).value, i).Ok?
    ensures var s := Get(RowFold(metaFields, i, cats).stats, cats[k'].0);
      s.Some? && s.value.Map? && Get(s.value.m, f).None?
  {
    RowStatsOwnership(metaFields, i, cats, k', f);
    SuppliedPrefix(Prefix(cats, k'), k, f, i);
  }

  lemma {:induction false} SuppliedPrefix(cats: Categories, k: nat, f: string, i: nat)
    requires k < |cats| && Has(cats[k].1, f) && IndexAt(Get(cats[k].1, f).value, i).Ok?
    ensures Supplied(cats, f, i)
  {
    if k < |cats| - 1 {
      SuppliedPrefix(Prefix(cats, |cats| - 1), k, f, i);
    }
  }

  /** Every record is a map with a `meta_data` map and a `stats` map that has one
      sub-map per category, in the categories' order. */
  lemma RecordShape(metaFields: seq<string>, projectMeta: bool, i: nat, cats: Categories)
    ensures var r := RowRecord(metaFields, projectMeta, i, cats);
      && r.Map? && Keys(r.m) == ["meta_data", "stats"]
      && Get(r.m, "meta_data").Some? && Get(r.m, "meta_data").value.Map?
      && Get(r.m, "stats").Some? && Get(r.m, "stats").value.Map?
      && Keys(Get(r.m, "stats").value.m) == Keys(cats)
  {
    RowStatsKeys(metaFields, i, cats);
  }

  /** A projected meta map holds exactly the meta fields some category has, in the meta
      field list's order. */
  lemma ProjectedMeta(metaFields: seq<string>, i: nat, cats: Categories, f: string)
    ensures Get(MetaOut(RowFold(metaFields, i, cats).meta, metaFields, true), f)
      == if f in metaFields then MetaValue(cats, f, i) else None
    ensures Lists.IsSubseq(Keys(MetaOut(RowFold(metaFields, i, cats).meta, metaFields, true)), metaFields)
  {
    var meta := RowFold(metaFields, i, cats).meta;
    GetProject(meta, metaFields, f);
    RowMetaLastWriter(metaFields, i, cats, f);
    ProjectKeysSubseq(meta, metaFields);
  }

  /** A successful reorientation holds one record per entry of the reference column,
      record `i` merging row `i` of every category, with a stats sub-map per category. */
  lemma ReorientShape(cats: Categories, metaFields: seq<string>, refCat: string, refField: string)
    requires Reorient(cats, metaFields, refCat, refField).Ok?
    ensures var n := Len(Get(Get(cats, refCat).value, refField).value).value;
      var data := Reorient(cats, metaFields, refCat, refField).value;
      && data == DataOf(Records(metaFields, false, cats, n))
      && forall i :: 0 <= i < n ==>
           var r := Records(metaFields, false, cats, n)[i];
           r.Map? && Keys(r.m) == ["meta_data", "stats"]
           && Get(r.m, "stats").Some? && Get(r.m, "stats").value.Map?
           && Keys(Get(r.m, "stats").value.m) == Keys(cats)
  {
    var n := Len(Get(Get(cats, refCat).value, refField).value).value;
    forall i | 0 <= i < n
      ensures var r := Records(metaFields, false, cats, n)[i];
        r.Map? && Keys(r.m) == ["meta_data", "stats"]
        && Get(r.m, "stats").Some? && Get(r.m, "stats").value.Map?
        && Keys(Get(r.m, "stats").value.m) == Keys(cats)
    {
      RecordShape(metaFields, false, i, cats);
    }
  }
}
