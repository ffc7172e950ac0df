/** The machinery every scraper shares (scraper/fbref_scraper.py): an HTML table reduced
    to rows of cell texts, the header clean-up, row selection, caption-based table
    selection, id extraction from the hrefs of a table, the dict key helpers, the type
    coercion of columns, the column-to-record reorientation, and two string cleaners. */
module FbrefScraper {
  import opened Wrappers
  import opened Text
  import opened Lists
  import opened Dicts
  import opened Values
  import opened Patterns

  /** A `<tr>`: its class list, the stripped texts of its `<th>`/`<td>` cells, and the
      `href` of each of its `<a>` elements ("" where the attribute is missing). */
  datatype Row = Row(classes: seq<string>, cells: seq<string>, hrefs: seq<string>)

  /** A `<table>`: the text of its `<caption>` when it has one, and its rows. */
  datatype Table = Table(caption: Option<string>, rows: seq<Row>)

  // ---------------------------------------------------------------- rows

  predicate IsSpacer(r: Row) {
    "spacer" in r.classes
  }

  /** The rows that are not spacers, in document order: a subsequence of the rows
      that holds every non-spacer row as often as the table does and no spacer row. */
  function ParseTableRows(t: Table): (r: seq<Row>)
    ensures forall i :: 0 <= i < |r| ==> !IsSpacer(r[i]) && r[i] in t.rows
    ensures forall i :: 0 <= i < |t.rows| && !IsSpacer(t.rows[i]) ==> t.rows[i] in r
    ensures IsSubseq(r, t.rows)
    ensures forall x :: Count(r, x) == if IsSpacer(x) then 0 else Count(t.rows, x)
  {
    NonSpacerSubseq(t.rows);
    NonSpacerCounts(t.rows);
    NonSpacer(t.rows)
  }

  function NonSpacer(rows: seq<Row>): (r: seq<Row>)
    ensures forall i :: 0 <= i < |r| ==> !IsSpacer(r[i]) && r[i] in rows
    ensures forall i :: 0 <= i < |rows| && !IsSpacer(rows[i]) ==> rows[i] in r
  {
    if |rows| == 0 then []
    else
      var p := NonSpacer(rows[..|rows| - 1]);
      var last := rows[|rows| - 1];
      assert rows == rows[..|rows| - 1] + [last];
      if IsSpacer(last) then p else p + [last]
  }

  /** Dropping spacer rows keeps each other row as many times as it occurs. */
  lemma {:induction false} NonSpacerCounts(rows: seq<Row>)
    ensures forall x :: Count(NonSpacer(rows), x) == if IsSpacer(x) then 0 else Count(rows, x)
  {
    if |rows| > 0 {
      var rows' := rows[..|rows| - 1];
      var last := rows[|rows| - 1];
      var p := NonSpacer(rows');
      NonSpacerCounts(rows');
      if !IsSpacer(last) {
        assert (p + [last])[..|p|] == p;
      }
    }
  }

  lemma {:induction false} NonSpacerSubseq(rows: seq<Row>)
    ensures IsSubseq(NonSpacer(rows), rows)
  {
    if |rows| > 0 {
      var rows' := rows[..|rows| - 1];
      var last := rows[|rows| - 1];
      var p := NonSpacer(rows');
      NonSpacerSubseq(rows');
      if IsSpacer(last) {
        SubseqExtend(p, rows', last);
        assert rows' + [last] == rows;
      } else {
        assert (p + [last])[..|p|] == p;
      }
    }
  }

  /** The cell texts of each row (`parse_all_row_data`). */
  function RowData(rows: seq<Row>): (r: seq<seq<string>>)
    ensures |r| == |rows|
    ensures forall i :: 0 <= i < |rows| ==> r[i] == rows[i].cells
  {
    seq(|rows|, i requires 0 <= i < |rows| => rows[i].cells)
  }

  // ---------------------------------------------------------------- headers

  /** `field.strip().lower().replace(" ", "_")` */
  function FormatField(f: string): string {
    ReplaceAll(Lower(Strip(f)), " ", "_")
  }

  /** One character of a formatted field. */
  function FormatChar(c: char): char {
    if LowerChar(c) == ' ' then '_' else LowerChar(c)
  }

  lemma FormatFieldPointwise(f: string)
    ensures |FormatField(f)| == |Strip(f)|
    ensures forall k :: 0 <= k < |Strip(f)| ==> FormatField(f)[k] == FormatChar(Strip(f)[k])
  {
    ReplaceOneChar(Lower(Strip(f)), ' ', "_");
    MapCharPointwise(Lower(Strip(f)), ' ', '_');
  }

  lemma FormatCharNormal(c: char)
    ensures FormatChar(c) != ' ' && !IsUpper(FormatChar(c))
    ensures !IsSpace(c) ==> !IsSpace(FormatChar(c))
    ensures FormatChar(FormatChar(c)) == FormatChar(c)
  {
  }

  /** A formatted field has no blank and no upper-case letter, and formatting it
      again changes nothing. */
  lemma FormatFieldNormal(f: string)
    ensures ' ' !in FormatField(f)
    ensures forall k :: 0 <= k < |FormatField(f)| ==> !IsUpper(FormatField(f)[k])
    ensures FormatField(FormatField(f)) == FormatField(f)
  {
    FormatFieldChars(f);
    FormatFieldTwice(f);
  }

  /** Every character of a formatted field is a fixed point of `FormatChar`. */
  lemma FormatFieldChars(f: string)
    ensures forall k :: 0 <= k < |FormatField(f)| ==>
      FormatField(f)[k] != ' ' && !IsUpper(FormatField(f)[k]) && FormatChar(FormatField(f)[k]) == FormatField(f)[k]
  {
    var t := Strip(f);
    var g := FormatField(f);
    FormatFieldPointwise(f);
    forall k | 0 <= k < |g| ensures g[k] != ' ' && !IsUpper(g[k]) && FormatChar(g[k]) == g[k] {
      FormatCharNormal(t[k]);
    }
  }

  lemma FormatFieldTwice(f: string)
    ensures FormatField(FormatField(f)) == FormatField(f)
  {
    var t := Strip(f);
    var g := FormatField(f);
    FormatFieldPointwise(f);
    FormatFieldChars(f);
    StripEnds(f);
    if |g| > 0 {
      FormatCharNormal(t[0]);
      FormatCharNormal(t[|t| - 1]);
    }
    StripNoop(g);
    FormatFieldPointwise(g);
  }

  /** The header a column gets when `c` equal headers came before it: the first keeps
      its name, the k-th repeat gets the suffix `str(k)`. */
  function Label(h: string, c: nat): string {
    if c == 0 then h else h + NatToString(c)
  }

  /** `add_suffix_to_repeat_headers`, stated position by position. */
  function Suffixed(headers: seq<string>): (r: seq<string>)
    ensures |r| == |headers|
  {
    seq(|headers|, i requires 0 <= i < |headers| => Label(headers[i], Count(headers[..i], headers[i])))
  }

  /** `counts` maps each header seen in `xs` to its number of occurrences. */
  ghost predicate CountsOf(counts: map<string, nat>, xs: seq<string>) {
    && (forall x :: x in counts ==> counts[x] == Count(xs, x) > 0)
    && (forall x :: x !in counts ==> Count(xs, x) == 0)
  }

  /** The labels of the first `i` headers. */
  ghost predicate LabelledUpTo(r: seq<string>, headers: seq<string>, i: nat) {
    && i <= |headers| && |r| == i
    && forall k :: 0 <= k < i ==> r[k] == Label(headers[k], Count(headers[..k], headers[k]))
  }

  method AddSuffixToRepeatHeaders(headers: seq<string>) returns (r: seq<string>)
    ensures r == Suffixed(headers)
  {
    var counts: map<string, nat> := map[];
    r := [];
    var i := 0;
    while i < |headers|
      invariant 0 <= i <= |headers|
      invariant LabelledUpTo(r, headers, i)
      invariant CountsOf(counts, headers[..i])
    {
      var h := headers[i];
      SuffixStep(counts, r, headers, i);
      if h in counts {
        counts := counts[h := counts[h] + 1];
        r := r + [h + NatToString(counts[h] - 1)];
      } else {
        counts := counts[h := 1];
        r := r + [h];
      }
      i := i + 1;
    }
    assert headers[..i] == headers;
  }

  /** One iteration: header `i` is labelled from its count so far, and counted. */
  lemma SuffixStep(counts: map<string, nat>, r: seq<string>, headers: seq<string>, i: nat)
    requires i < |headers| && LabelledUpTo(r, headers, i) && CountsOf(counts, headers[..i])
    ensures var h := headers[i];
      && LabelledUpTo(r + [if h in counts then h + NatToString(counts[h]) else h], headers, i + 1)
      && CountsOf(counts[h := if h in counts then counts[h] + 1 else 1], headers[..i + 1])
  {
    CountsStep(counts, headers, i);
    LabelsStep(r, headers, i);
  }

  /** Counting header `i` keeps `counts` exact. */
  lemma CountsStep(counts: map<string, nat>, headers: seq<string>, i: nat)
    requires i < |headers| && CountsOf(counts, headers[..i])
    ensures var h := headers[i];
      CountsOf(counts[h := if h in counts then counts[h] + 1 else 1], headers[..i + 1])
  {
    var h := headers[i];
    var next := counts[h := if h in counts then counts[h] + 1 else 1];
    forall x | x in next ensures next[x] == Count(headers[..i + 1], x) > 0 {
      CountSnoc(headers, i, x);
    }
    forall x | x !in next ensures Count(headers[..i + 1], x) == 0 {
      CountSnoc(headers, i, x);
    }
  }

  /** Labelling header `i` extends the labels. */
  lemma LabelsStep(r: seq<string>, headers: seq<string>, i: nat)
    requires i < |headers| && LabelledUpTo(r, headers, i)
    ensures LabelledUpTo(r + [Label(headers[i], Count(headers[..i], headers[i]))], headers, i + 1)
  {
    var r' := r + [Label(headers[i], Count(headers[..i], headers[i]))];
    forall k | 0 <= k < i + 1 ensures r'[k] == Label(headers[k], Count(headers[..k], headers[k])) {
      if k < i {
        assert r'[k] == r[k];
      }
    }
  }

  lemma CountSnoc(xs: seq<string>, i: nat, x: string)
    requires i < |xs|
    ensures Count(xs[..i + 1], x) == Count(xs[..i], x) + (if xs[i] == x then 1 else 0)
  {
    assert xs[..i + 1][..i] == xs[..i];
  }

  /** Distinct headers are left as they are. */
  lemma SuffixedOfDistinct(headers: seq<string>)
    requires Distinct(headers)
    ensures Suffixed(headers) == headers
  {
    forall i | 0 <= i < |headers| ensures Count(headers[..i], headers[i]) == 0 {
      assert headers[i] !in headers[..i];
    }
  }

  predicate DigitFree(s: string) {
    forall k :: 0 <= k < |s| ==> !IsDigit(s[k])
  }

  /** When no header contains a digit, the suffixed headers are all different. */
  lemma SuffixedDistinct(headers: seq<string>)
    requires forall k :: 0 <= k < |headers| ==> DigitFree(headers[k])
    ensures Distinct(Suffixed(headers))
  {
    var r := Suffixed(headers);
    forall i, j | 0 <= i < j < |r| ensures r[i] != r[j] {
      var ci := Count(headers[..i], headers[i]);
      var cj := Count(headers[..j], headers[j]);
      if headers[i] == headers[j] {
        CountGrows(headers, headers[i], i, j);
        assert headers[..j][..i] == headers[..i];
        LabelsOfOneHeader(headers[i], ci, cj);
      } else {
        LabelsOfTwoHeaders(headers[i], ci, headers[j], cj);
      }
    }
  }

  /** A later occurrence of `x` has seen strictly more copies of it before it. */
  lemma {:induction false} CountGrows(xs: seq<string>, x: string, i: nat, j: nat)
    requires i < j <= |xs| && xs[i] == x
    ensures Count(xs[..i], x) < Count(xs[..j], x)
    decreases j
  {
    assert xs[..j][..j - 1] == xs[..j - 1];
    if j > i + 1 {
      CountGrows(xs, x, i, j - 1);
    }
  }

  /** Position of the first digit of `s`, or `|s|`. */
  function FirstDigit(s: string): (i: nat)
    ensures i <= |s|
  {
    if |s| == 0 || IsDigit(s[0]) then 0 else 1 + FirstDigit(s[1..])
  }

  /** The digit-free part of a label is the header it was made from. */
  lemma {:induction false} FirstDigitOfLabel(h: string, d: string)
    requires DigitFree(h) && AllDigits(d)
    ensures FirstDigit(h + d) == |h|
  {
    if |h| > 0 {
      assert (h + d)[1..] == h[1..] + d;
      FirstDigitOfLabel(h[1..], d);
    }
  }

  lemma LabelsOfOneHeader(h: string, c: nat, c': nat)
    requires c < c'
    ensures Label(h, c) != Label(h, c')
  {
    NatToStringValue(c');
    assert Label(h, c')[|h|..] == NatToString(c');
    if c > 0 {
      NatToStringValue(c);
      assert Label(h, c)[|h|..] == NatToString(c);
    }
  }

  lemma LabelsOfTwoHeaders(h: string, c: nat, h': string, c': nat)
    requires h != h' && DigitFree(h) && DigitFree(h')
    ensures Label(h, c) != Label(h', c')
  {
    var d := if c == 0 then "" else NatToString(c);
    var d' := if c' == 0 then "" else NatToString(c');
    assert Label(h, c) == h + d && Label(h', c') == h' + d';
    FirstDigitOfLabel(h, d);
    FirstDigitOfLabel(h', d');
    assert (h + d)[..|h|] == h && (h' + d')[..|h'|] == h';
  }

  // ---------------------------------------------------------------- row selection

  /** A totals row: its first cell contains "Total". */
  predicate IsTotalsRow(row: seq<string>) {
    |row| > 0 && Contains(row[0], "Total")
  }

  /** The scan of `detect_totals_rows` once the last `i` rows were found to be totals
      rows: the count of trailing totals rows, or IndexError when the scan reaches an
      empty row. */
  function TotalsFrom(rows: seq<seq<string>>, i: nat): (r: Result<nat>)
    requires i <= |rows|
    ensures r.Ok? ==> i <= r.value <= |rows|
    ensures r.Err? ==> r.error == IndexError
    decreases |rows| - i
  {
    if i == |rows| then Ok(i)
    else
      var row := rows[|rows| - 1 - i];
      if |row| == 0 then Err(IndexError)
      else if Contains(row[0], "Total") then TotalsFrom(rows, i + 1)
      else Ok(i)
  }

  /** Number of totals rows at the end of the table. */
  function TotalsRows(rows: seq<seq<string>>): Result<nat> {
    TotalsFrom(rows, 0)
  }

  /** The count is exactly the run of trailing totals rows: every counted row is one,
      and the row just before them is not. The scan fails only on an empty row that it
      reaches before any non-totals row. */
  lemma {:induction false} TotalsRowsTrailing(rows: seq<seq<string>>, i: nat)
    requires i <= |rows|
    requires forall k :: |rows| - i <= k < |rows| ==> IsTotalsRow(rows[k])
    ensures TotalsFrom(rows, i).Ok? ==>
      var c := TotalsFrom(rows, i).value;
      (forall k :: |rows| - c <= k < |rows| ==> IsTotalsRow(rows[k]))
      && (c < |rows| ==> |rows[|rows| - 1 - c]| > 0 && !IsTotalsRow(rows[|rows| - 1 - c]))
    ensures TotalsFrom(rows, i).Err? ==>
      exists k :: 0 <= k < |rows| - i && |rows[k]| == 0
        && forall k' :: k < k' < |rows| ==> IsTotalsRow(rows[k'])
    decreases |rows| - i
  {
    if i < |rows| {
      var row := rows[|rows| - 1 - i];
      if |row| > 0 && Contains(row[0], "Total") {
        TotalsRowsTrailing(rows, i + 1);
      } else if |row| == 0 {
        assert forall k' :: |rows| - 1 - i < k' < |rows| ==> IsTotalsRow(rows[k']);
      }
    }
  }

  method DetectTotalsRows(rows: seq<seq<string>>) returns (r: Result<nat>)
    ensures r == TotalsRows(rows)
  {
    var count := 0;
    var i := 0;
    while i < |rows|
      invariant 0 <= i <= |rows| && count == i
      invariant TotalsFrom(rows, i) == TotalsRows(rows)
    {
      var check := rows[|rows| - (i + 1)];
      if |check| == 0 {
        return Err(IndexError);
      }
      if Contains(check[0], "Total") {
        count := count + 1;
      } else {
        break;
      }
      i := i + 1;
    }
    return Ok(count);
  }

  /** Rows kept by `parse_table_data` before the header row is split off: the first
      row skipped on request, then either the trailing totals rows (when
      `excludeTotals`, whatever `dropRows` says) or the last `dropRows` rows dropped. */
  function SelectRows(rows: seq<seq<string>>, skipRow: bool, dropRows: int, excludeTotals: bool)
    : Result<seq<seq<string>>>
  {
    var kept := if skipRow then SliceFrom(rows, 1) else rows;
    var drop :- if excludeTotals then TotalsRows(kept) else Ok(dropRows);
    Ok(if drop > 0 then Slice(kept, 0, -drop) else kept)
  }

  /** The selection is a prefix of the rows left after the skip; with totals
      excluded it removes exactly the trailing totals rows, otherwise exactly
      `dropRows` rows (all of them when there are fewer). */
  lemma SelectRowsPrefix(rows: seq<seq<string>>, skipRow: bool, dropRows: int, excludeTotals: bool)
    ensures var kept := if skipRow && |rows| > 0 then rows[1..] else rows;
      var r := SelectRows(rows, skipRow, dropRows, excludeTotals);
      && (r.Ok? ==> |r.value| <= |kept| && r.value == kept[..|r.value|])
      && (!excludeTotals ==> r.Ok? && |r.value| == if dropRows <= 0 then |kept|
            else if dropRows >= |kept| then 0 else |kept| - dropRows)
      && (excludeTotals ==> r == (match TotalsRows(kept)
            case Ok(c) => Ok(kept[..|kept| - c])
            case Err(e) => Err(e)))
  {
  }

  // ---------------------------------------------------------------- rows to columns

  /** Number of columns `zip(headers, zip(*data))` yields: none without data rows,
      otherwise as many as the shortest of the header row and the data rows. */
  function Width(headers: seq<string>, data: seq<seq<string>>): (n: nat)
    ensures n <= |headers|
    ensures forall i :: 0 <= i < |data| ==> n <= |data[i]|
    ensures |data| == 0 ==> n == 0
  {
    if |data| == 0 then 0
    else
      var m := Width(headers, data[..|data| - 1]);
      var last := |data[|data| - 1]|;
      assert forall i :: 0 <= i < |data| - 1 ==> data[i] == data[..|data| - 1][i];
      if |data| == 1 then (if last < |headers| then last else |headers|)
      else if last < m then last else m
  }

  /** The width is the shortest length: that of the header row or of some data row. */
  lemma {:induction false} WidthIsShortest(headers: seq<string>, data: seq<seq<string>>)
    requires |data| > 0
    ensures Width(headers, data) == |headers| || exists i :: 0 <= i < |data| && Width(headers, data) == |data[i]|
  {
    if |data| > 1 {
      var p := data[..|data| - 1];
      WidthIsShortest(headers, p);
      if Width(headers, data) == Width(headers, p) && Width(headers, p) != |headers| {
        var i :| 0 <= i < |p| && Width(headers, p) == |p[i]|;
        assert p[i] == data[i];
      }
    }
  }

  /** Column `j` of the data rows, as a list of strings. */
  function Column(data: seq<seq<string>>, j: nat): (v: Value)
    requires forall i :: 0 <= i < |data| ==> j < |data[i]|
    ensures v.List? && |v.items| == |data|
    ensures forall i :: 0 <= i < |data| ==> v.items[i] == Str(data[i][j])
  {
    List(seq(|data|, i requires 0 <= i < |data| => Str(data[i][j])))
  }

  /** The first `n` columns of the data rows. */
  function ColumnList(data: seq<seq<string>>, n: nat): (cols: seq<Value>)
    requires forall i :: 0 <= i < |data| ==> n <= |data[i]|
    ensures |cols| == n
    ensures forall j :: 0 <= j < n ==> cols[j] == Column(data, j)
  {
    seq(n, j requires 0 <= j < n => Column(data, j))
  }

  /** `for ch, col in zip(headers, zip(*data)): d[ch] = list(col)` over the first `n`
      columns. */
  function Columns(headers: seq<string>, data: seq<seq<string>>, n: nat): Dict<Value>
    requires n <= Width(headers, data)
  {
    SetAll(headers[..n], ColumnList(data, n))
  }

  /** The keys are the first `n` headers, each at its first occurrence. */
  lemma ColumnsKeys(headers: seq<string>, data: seq<seq<string>>, n: nat)
    requires n <= Width(headers, data)
    ensures Keys(Columns(headers, data, n)) == Dedup(headers[..n])
  {
    SetAllKeys(headers[..n], ColumnList(data, n));
  }

  /** Each header maps to the column of its last occurrence among the first `n`,
      so a repeated header keeps its first position but the last column's data. */
  lemma GetColumns(headers: seq<string>, data: seq<seq<string>>, n: nat, j: nat)
    requires j < n <= Width(headers, data)
    requires forall j' :: j < j' < n ==> headers[j'] != headers[j]
    ensures Get(Columns(headers, data, n), headers[j]) == Some(Column(data, j))
  {
    var ks := headers[..n];
    assert forall j' :: j < j' < |ks| ==> ks[j'] != ks[j];
    GetSetAll(ks, ColumnList(data, n), j);
  }

  /** The header row after `format_field` and `add_suffix_to_repeat_headers`. */
  function CleanHeaders(row: seq<string>): (r: seq<string>)
    ensures |r| == |row|
  {
    Suffixed(seq(|row|, k requires 0 <= k < |row| => FormatField(row[k])))
  }

  /** `convert_row_data_to_dict`: the first row holds the headers, which are formatted
      and suffixed; the remaining rows are the data. An empty table raises IndexError.
      Every column of the dict holds one string per data row, a header row without data
      rows gives an empty dict, and distinct cleaned headers become the keys in order,
      each holding its own column. */
  function ConvertRowDataToDict(rows: seq<seq<string>>): (r: Result<Dict<Value>>)
    ensures r.Err? <==> |rows| == 0
    ensures r.Err? ==> r.error == IndexError
    ensures |rows| == 1 ==> r == Ok([])
    ensures r.Ok? ==> ColumnsOfLength(r.value, |rows| - 1)
    ensures r.Ok? ==>
      var headers := CleanHeaders(rows[0]);
      var n := Width(headers, rows[1..]);
      Distinct(headers[..n]) ==>
        Keys(r.value) == headers[..n] && forall j :: 0 <= j < n ==> r.value[j].1 == Column(rows[1..], j)
  {
    if |rows| == 0 then Err(IndexError)
    else
      var headers := CleanHeaders(rows[0]);
      var data := rows[1..];
      ColumnsShape(headers, data, Width(headers, data));
      Ok(Columns(headers, data, Width(headers, data)))
  }

  /** Every value is a list of `len` items. */
  predicate ColumnsOfLength(d: Dict<Value>, len: nat) {
    forall i :: 0 <= i < |d| ==> d[i].1.List? && |d[i].1.items| == len
  }

  lemma ColumnsShape(headers: seq<string>, data: seq<seq<string>>, n: nat)
    requires n <= Width(headers, data)
    ensures var d := Columns(headers, data, n);
      && (|data| == 0 ==> d == [])
      && ColumnsOfLength(d, |data|)
      && (Distinct(headers[..n]) ==>
            Keys(d) == headers[..n] && forall j :: 0 <= j < n ==> d[j].1 == Column(data, j))
  {
    ColumnsLengths(headers, data, n);
    if Distinct(headers[..n]) {
      ColumnsOfDistinct(headers, data, n);
    }
  }

  lemma ColumnsLengths(headers: seq<string>, data: seq<seq<string>>, n: nat)
    requires n <= Width(headers, data)
    ensures ColumnsOfLength(Columns(headers, data, n), |data|)
  {
    var cols := ColumnList(data, n);
    SetAllValues(headers[..n], cols);
    forall i | 0 <= i < |Columns(headers, data, n)|
      ensures Columns(headers, data, n)[i].1.List? && |Columns(headers, data, n)[i].1.items| == |data|
    {
      var j :| 0 <= j < n && cols[j] == Columns(headers, data, n)[i].1;
    }
  }

  lemma ColumnsOfDistinct(headers: seq<string>, data: seq<seq<string>>, n: nat)
    requires n <= Width(headers, data) && Distinct(headers[..n])
    ensures Keys(Columns(headers, data, n)) == headers[..n]
    ensures forall j :: 0 <= j < n ==> Columns(headers, data, n)[j].1 == Column(data, j)
  {
    SetAllDistinct(headers[..n], ColumnList(data, n));
  }

  /** `parse_table_data` */
  function ParseTableData(t: Table, skipRow: bool, dropRows: int, excludeTotals: bool): Result<Dict<Value>> {
    var rows :- SelectRows(RowData(ParseTableRows(t)), skipRow, dropRows, excludeTotals);
    ConvertRowDataToDict(rows)
  }

  // ---------------------------------------------------------------- table names

  /** `get_table_name`: the stripped caption text, with every "Table" removed (and the
      rest stripped again) when `removeTable` holds and the name mentions it; `None`
      for a table without a caption. */
  function GetTableName(t: Table, removeTable: bool): (r: Option<string>)
    ensures r.Some? <==> t.caption.Some?
  {
    match t.caption
    case None => None
    case Some(c) =>
      var name := Strip(c);
      if Contains(name, "Table") && removeTable then Some(Strip(ReplaceAll(name, "Table", "")))
      else Some(name)
  }

  /** The name never has whitespace at its ends, and a caption that does not mention
      "Table" (or a call that keeps it) gives the stripped caption itself. */
  lemma GetTableNameStripped(t: Table, removeTable: bool)
    requires t.caption.Some?
    ensures var n := GetTableName(t, removeTable).value;
      n == [] || (!IsSpace(n[0]) && !IsSpace(n[|n| - 1]))
    ensures !removeTable || !Contains(Strip(t.caption.value), "Table") ==>
      GetTableName(t, removeTable) == Some(Strip(t.caption.value))
  {
    StripEnds(t.caption.value);
    StripEnds(ReplaceAll(Strip(t.caption.value), "Table", ""));
  }

  // ---------------------------------------------------------------- caption selection

  /** `re.findall(pattern, name)` for one caption pattern: the matches it finds. */
  type Finder = string -> seq<string>

  /** What `get_tables_from_caption` has collected so far: the positions of the tables
      taken and the match lists already seen. */
  datatype Selection = Selection(picked: seq<nat>, names: seq<seq<string>>)

  /** The selection is consistent for `n` tables: one non-empty, previously unseen match
      list per pick, and picks in document order. */
  predicate Consistent(sel: Selection, n: nat) {
    && |sel.picked| == |sel.names|
    && Distinct(sel.names)
    && (forall k :: 0 <= k < |sel.names| ==> |sel.names[k]| > 0)
    && (forall k :: 0 <= k < |sel.picked| ==> sel.picked[k] < n)
    && (forall k, l :: 0 <= k < l < |sel.picked| ==> sel.picked[k] <= sel.picked[l])
  }

  /** One pattern applied to the name of the table at `index`. */
  function TryPattern(sel: Selection, index: nat, found: seq<string>): (r: Selection)
    requires Consistent(sel, index + 1)
    ensures Consistent(r, index + 1)
    ensures r == sel || (r.picked == sel.picked + [index] && r.names == sel.names + [found])
  {
    if |found| > 0 && found !in sel.names then Selection(sel.picked + [index], sel.names + [found])
    else sel
  }

  /** The patterns, in order, applied to the name of the table at `index`. */
  function ScanPatterns(sel: Selection, index: nat, name: string, patterns: seq<Finder>): (r: Selection)
    requires Consistent(sel, index + 1)
    ensures Consistent(r, index + 1)
  {
    if |patterns| == 0 then sel
    else
      TryPattern(ScanPatterns(sel, index, name, patterns[..|patterns| - 1]), index,
        patterns[|patterns| - 1](name))
  }

  /** The tables, in order. The name is computed for each pattern, so a table without
      a caption fails (`re.findall` on `None` raises TypeError) unless there are no
      patterns. */
  function ScanTables(tables: seq<Table>, patterns: seq<Finder>): (r: Result<Selection>)
    ensures r.Ok? ==> Consistent(r.value, |tables|)
    ensures r.Err? ==> r.error == TypeError
  {
    if |tables| == 0 then Ok(Selection([], []))
    else
      var sel :- ScanTables(tables[..|tables| - 1], patterns);
      if |patterns| == 0 then Ok(sel)
      else
        match GetTableName(tables[|tables| - 1], true)
        case None => Err(TypeError)
        case Some(name) => Ok(ScanPatterns(sel, |tables| - 1, name, patterns))
  }

  /** `get_tables_from_caption`: the tables taken, or `None` when none was. */
  function TablesFromCaption(tables: seq<Table>, patterns: seq<Finder>): (r: Result<Option<seq<Table>>>)
    ensures r.Ok? <==> ScanTables(tables, patterns).Ok?
    ensures r.Ok? ==> var sel := ScanTables(tables, patterns).value;
      (r.value.None? <==> |sel.picked| == 0)
      && (r.value.Some? ==>
            |r.value.value| == |sel.picked|
            && forall k :: 0 <= k < |sel.picked| ==> r.value.value[k] == tables[sel.picked[k]])
  {
    var sel :- ScanTables(tables, patterns);
    if |sel.picked| > 0 then Ok(Some(TablesAt(tables, sel.picked)))
    else Ok(None)
  }

  /** `parse_table_data(get_tables_from_caption(tables, patterns)[0])`, the way the
      league-seasons and league-season-details scrapers read their one table: no
      table found makes `None[0]` raise TypeError. */
  function FirstTableData(tables: seq<Table>, patterns: seq<Finder>): (r: Result<Dict<Value>>)
    ensures TablesFromCaption(tables, patterns) == Ok(None) ==> r == Err(TypeError)
    ensures TablesFromCaption(tables, patterns).Ok? && TablesFromCaption(tables, patterns).value.Some? ==>
      var ts := TablesFromCaption(tables, patterns).value.value;
      |ts| > 0 && r == ParseTableData(ts[0], false, 0, false)
  {
    var found :- TablesFromCaption(tables, patterns);
    match found
    case None => Err(TypeError)
    case Some(ts) => ParseTableData(ts[0], false, 0, false)
  }

  function TablesAt(tables: seq<Table>, picked: seq<nat>): (r: seq<Table>)
    requires forall k :: 0 <= k < |picked| ==> picked[k] < |tables|
    ensures |r| == |picked| && forall k :: 0 <= k < |picked| ==> r[k] == tables[picked[k]]
  {
    seq(|picked|, k requires 0 <= k < |picked| => tables[picked[k]])
  }

  /** `taken` holds the tables at the positions `picked`, in order. */
  predicate TakenAt(taken: seq<Table>, tables: seq<Table>, picked: seq<nat>) {
    && |taken| == |picked|
    && forall k :: 0 <= k < |picked| ==> picked[k] < |tables| && taken[k] == tables[picked[k]]
  }

  method GetTablesFromCaption(tables: seq<Table>, patterns: seq<Finder>) returns (r: Result<Option<seq<Table>>>)
    ensures r == TablesFromCaption(tables, patterns)
  {
    var taken: seq<Table> := [];
    var tableNames: seq<seq<string>> := [];
    ghost var sel := Selection([], []);
    var i := 0;
    while i < |tables|
      invariant 0 <= i <= |tables|
      invariant ScanTables(tables[..i], patterns) == Ok(sel)
      invariant tableNames == sel.names && TakenAt(taken, tables, sel.picked)
    {
      ghost var sel0 := sel;
      ghost var gname := if GetTableName(tables[i], true).Some? then GetTableName(tables[i], true).value else "";
      ScanTablesSnoc(tables, patterns, i);
      var j := 0;
      while j < |patterns|
        invariant 0 <= j <= |patterns|
        invariant Consistent(sel0, i + 1)
        invariant j > 0 ==> GetTableName(tables[i], true).Some?
        invariant sel == ScanPatterns(sel0, i, gname, patterns[..j])
        invariant tableNames == sel.names && TakenAt(taken, tables, sel.picked)
      {
        var name := GetTableName(tables[i], true);
        if name.None? {
          TablesErrorAt(tables, patterns, i);
          return Err(TypeError);
        }
        var found := patterns[j](name.value);
        ScanPatternsSnoc(sel0, i, gname, patterns, j);
        if |found| > 0 && found !in tableNames {
          TakenAtPush(taken, tables, sel.picked, i);
          taken := taken + [tables[i]];
          tableNames := tableNames + [found];
        }
        sel := TryPattern(sel, i, found);
        j := j + 1;
      }
      assert patterns[..j] == patterns;
      i := i + 1;
    }
    assert tables[..i] == tables;
    assert taken == TablesAt(tables, sel.picked);
    if |taken| > 0 {
      r := Ok(Some(taken));
    } else {
      r := Ok(None);
    }
  }

  /** Taking table `i` extends the picks by `i`. */
  lemma TakenAtPush(taken: seq<Table>, tables: seq<Table>, picked: seq<nat>, i: nat)
    requires TakenAt(taken, tables, picked) && i < |tables|
    ensures TakenAt(taken + [tables[i]], tables, picked + [i])
  {
  }

  /** The scan of the first `i + 1` tables: that of the first `i`, then table `i`. */
  lemma ScanTablesSnoc(tables: seq<Table>, patterns: seq<Finder>, i: nat)
    requires i < |tables|
    ensures var p := ScanTables(tables[..i], patterns);
      p.Err? || |patterns| == 0 ==> ScanTables(tables[..i + 1], patterns) == p
    ensures var p := ScanTables(tables[..i], patterns);
      p.Ok? && |patterns| > 0 && GetTableName(tables[i], true).None? ==>
        ScanTables(tables[..i + 1], patterns) == Err(TypeError)
    ensures var p := ScanTables(tables[..i], patterns);
      p.Ok? && |patterns| > 0 && GetTableName(tables[i], true).Some? ==>
        ScanTables(tables[..i + 1], patterns) == Ok(ScanPatterns(p.value, i, GetTableName(tables[i], true).value, patterns))
  {
    assert tables[..i + 1][..i] == tables[..i];
    assert tables[..i + 1][i] == tables[i];
  }

  /** The patterns up to `j + 1`: those up to `j`, then pattern `j`. */
  lemma ScanPatternsSnoc(sel: Selection, index: nat, name: string, patterns: seq<Finder>, j: nat)
    requires j < |patterns| && Consistent(sel, index + 1)
    ensures ScanPatterns(sel, index, name, patterns[..j + 1])
      == TryPattern(ScanPatterns(sel, index, name, patterns[..j]), index, patterns[j](name))
  {
    assert patterns[..j + 1][..j] == patterns[..j];
    assert patterns[..j + 1][j] == patterns[j];
  }

  /** With at least one pattern, a table without a caption anywhere fails the scan. */
  lemma {:induction false} ScanTablesNoCaption(tables: seq<Table>, patterns: seq<Finder>, i: nat)
    requires i < |tables| && |patterns| > 0 && GetTableName(tables[i], true).None?
    ensures ScanTables(tables, patterns) == Err(TypeError)
  {
    var init := tables[..|tables| - 1];
    if i < |tables| - 1 {
      assert init[i] == tables[i];
      ScanTablesNoCaption(init, patterns, i);
    }
  }

  /** A table without a caption, reached with at least one pattern, fails the scan. */
  lemma TablesErrorAt(tables: seq<Table>, patterns: seq<Finder>, i: nat)
    requires i < |tables| && |patterns| > 0 && GetTableName(tables[i], true).None?
    ensures TablesFromCaption(tables, patterns) == Err(TypeError)
  {
    ScanTablesNoCaption(tables, patterns, i);
  }

  /** The tables come back in document order, each taken at most once per distinct,
      non-empty match list; every one of them is among the inputs. */
  lemma TablesFromCaptionOrder(tables: seq<Table>, patterns: seq<Finder>)
    requires TablesFromCaption(tables, patterns).Ok?
    ensures var sel := ScanTables(tables, patterns).value;
      && Distinct(sel.names)
      && (forall k :: 0 <= k < |sel.names| ==> |sel.names[k]| > 0)
      && (forall k, l :: 0 <= k < l < |sel.picked| ==> sel.picked[k] <= sel.picked[l])
      && (TablesFromCaption(tables, patterns).value.Some? ==>
            forall k :: 0 <= k < |sel.picked| ==> TablesFromCaption(tables, patterns).value.value[k] in tables)
  {
  }

  /** The same table is taken twice when two patterns find different matches in its
      name. */
  lemma TableTakenTwice(t: Table, f: Finder, g: Finder)
    requires t.caption.Some?
    requires var name := GetTableName(t, true).value;
      |f(name)| > 0 && |g(name)| > 0 && f(name) != g(name)
    ensures TablesFromCaption([t], [f, g]) == Ok(Some([t, t]))
  {
    var name := GetTableName(t, true).value;
    ScanOneTable(t, [f, g]);
    TwoPatternsPick(name, f, g);
    assert TablesAt([t], [0, 0]) == [t, t];
  }

  /** A single captioned table is scanned with every pattern from an empty selection. */
  lemma ScanOneTable(t: Table, patterns: seq<Finder>)
    requires t.caption.Some? && |patterns| > 0
    ensures GetTableName(t, true).Some?
    ensures ScanTables([t], patterns) == Ok(ScanPatterns(Selection([], []), 0, GetTableName(t, true).value, patterns))
  {
    assert [t][..0] == [];
  }

  lemma TwoPatternsPick(name: string, f: Finder, g: Finder)
    requires |f(name)| > 0 && |g(name)| > 0 && f(name) != g(name)
    ensures ScanPatterns(Selection([], []), 0, name, [f, g]) == Selection([0, 0], [f(name), g(name)])
  {
    var ps := [f, g];
    var empty := Selection([], []);
    assert ps[..0] == [] && ps[..2] == ps;
    ScanPatternsSnoc(empty, 0, name, ps, 0);
    ScanPatternsSnoc(empty, 0, name, ps, 1);
    TwoMatchesPick(f(name), g(name));
  }

  lemma TwoMatchesPick(a: seq<string>, b: seq<string>)
    requires |a| > 0 && |b| > 0 && a != b
    ensures TryPattern(TryPattern(Selection([], []), 0, a), 0, b) == Selection([0, 0], [a, b])
  {
    assert TryPattern(Selection([], []), 0, a) == Selection([0], [a]);
    assert b !in [a];
  }


  // ---------------------------------------------------------------- items from hrefs

  /** The item of one row, scanning its hrefs from position `j`: the first non-empty
      href that some pattern matches with a non-empty group gives it. */
  function HrefScan(hrefs: seq<string>, patterns: seq<Matcher>, j: nat): (r: Result<Option<string>>)
    requires j <= |hrefs|
    ensures r.Ok? && r.value.Some? ==> r.value.value != ""
    ensures |patterns| > 0 ==> r.Ok?
    decreases |hrefs| - j
  {
    if j == |hrefs| then Ok(None)
    else if hrefs[j] == "" then HrefScan(hrefs, patterns, j + 1)
    else
      var item :- ParsePatternFromUrl(patterns, hrefs[j]);
      if item.Some? && item.value != "" then Ok(item) else HrefScan(hrefs, patterns, j + 1)
  }

  /** The item found in each row, in order; rows without one add nothing. */
  function ItemsOf(rows: seq<Row>, patterns: seq<Matcher>): (r: Result<seq<string>>)
    ensures r.Ok? ==> |r.value| <= |rows|
    ensures |patterns| > 0 ==> r.Ok?
  {
    if |rows| == 0 then Ok([])
    else
      var items :- ItemsOf(rows[..|rows| - 1], patterns);
      var item :- HrefScan(rows[|rows| - 1].hrefs, patterns, 0);
      Ok(if item.Some? then items + [item.value] else items)
  }

  /** When every row has an item, there is exactly one per row, in row order. */
  lemma {:induction false} ItemsOfEveryRow(rows: seq<Row>, patterns: seq<Matcher>)
    requires forall i :: 0 <= i < |rows| ==>
      HrefScan(rows[i].hrefs, patterns, 0).Ok? && HrefScan(rows[i].hrefs, patterns, 0).value.Some?
    ensures ItemsOf(rows, patterns).Ok?
    ensures |ItemsOf(rows, patterns).value| == |rows|
    ensures forall i :: 0 <= i < |rows| ==>
      ItemsOf(rows, patterns).value[i] == HrefScan(rows[i].hrefs, patterns, 0).value.value
  {
    if |rows| > 0 {
      var rows' := rows[..|rows| - 1];
      assert forall i :: 0 <= i < |rows'| ==> rows'[i] == rows[i];
      ItemsOfEveryRow(rows', patterns);
    }
  }

  /** The href scan of one row, with the loop's `break` after the first item. */
  method RowItem(row: Row, patterns: seq<Matcher>) returns (r: Result<Option<string>>)
    ensures r == HrefScan(row.hrefs, patterns, 0)
  {
    var j := 0;
    while j < |row.hrefs|
      invariant 0 <= j <= |row.hrefs|
      invariant HrefScan(row.hrefs, patterns, j) == HrefScan(row.hrefs, patterns, 0)
    {
      var href := row.hrefs[j];
      if href != "" {
        var item := ParsePatternFromUrl(patterns, href);
        if item.Err? {
          return Err(item.error);
        }
        if item.value.Some? && item.value.value != "" {
          return Ok(item.value);
        }
      }
      j := j + 1;
    }
    return Ok(None);
  }

  /** The loop over the rows shared by the table and stat-table versions. */
  method ItemsFromRows(rows: seq<Row>, patterns: seq<Matcher>) returns (r: Result<seq<string>>)
    ensures r == ItemsOf(rows, patterns)
  {
    var items: seq<string> := [];
    var i := 0;
    while i < |rows|
      invariant 0 <= i <= |rows|
      invariant ItemsOf(rows[..i], patterns) == Ok(items)
    {
      var item := RowItem(rows[i], patterns);
      assert rows[..i + 1][..i] == rows[..i];
      if item.Err? {
        ItemsOfFails(rows, patterns, i + 1);
        return Err(item.error);
      }
      if item.value.Some? {
        items := items + [item.value.value];
      }
      i := i + 1;
    }
    assert rows[..i] == rows;
    return Ok(items);
  }

  lemma {:induction false} ItemsOfFails(rows: seq<Row>, patterns: seq<Matcher>, i: nat)
    requires i <= |rows| && ItemsOf(rows[..i], patterns).Err?
    ensures ItemsOf(rows, patterns) == ItemsOf(rows[..i], patterns)
    decreases |rows| - i
  {
    if i == |rows| {
      assert rows[..i] == rows;
    } else {
      var m: nat := i + 1;
      assert rows[..m][..i] == rows[..i];
      ItemsOfFails(rows, patterns, m);
    }
  }

  /** `get_all_items_from_table_urls` */
  method GetAllItemsFromTableUrls(t: Table, patterns: seq<Matcher>) returns (r: Result<seq<string>>)
    ensures r == ItemsOf(ParseTableRows(t), patterns)
  {
    r := ItemsFromRows(ParseTableRows(t), patterns);
  }

  // ---------------------------------------------------------------- key helpers

  /** `rename_dict_key`: `d[newKey] = d.pop(oldKey)`; KeyError when `oldKey` is missing. */
  function RenameDictKey<V>(d: Dict<V>, oldKey: string, newKey: string): (r: Result<Dict<V>>)
    ensures r.Ok? <==> Has(d, oldKey)
    ensures r.Err? ==> r.error == KeyError
  {
    var popped :- Pop(d, oldKey);
    Ok(SetItem(popped.1, newKey, popped.0))
  }

  /** The value moves to the new key, the old key disappears (unless it is the new one),
      every other key keeps its value, and a new key goes to the end. */
  lemma GetRenameDictKey<V>(d: Dict<V>, oldKey: string, newKey: string, k: string)
    requires Has(d, oldKey)
    ensures var r := RenameDictKey(d, oldKey, newKey).value;
      Get(r, k) == (if k == newKey then Get(d, oldKey) else if k == oldKey then None else Get(d, k))
    ensures var r := RenameDictKey(d, oldKey, newKey).value;
      !Has(Remove(d, oldKey), newKey) ==> Keys(r) == Keys(Remove(d, oldKey)) + [newKey]
  {
    GetSetItem(Remove(d, oldKey), newKey, Get(d, oldKey).value, k);
    GetRemove(d, oldKey, k);
  }

  /** `delete_dict_keys` */
  method DeleteDictKeys<V>(d: Dict<V>, keysToDelete: seq<string>) returns (r: Dict<V>)
    ensures r == DeleteAll(d, keysToDelete)
  {
    r := d;
    var i := 0;
    while i < |keysToDelete|
      invariant 0 <= i <= |keysToDelete|
      invariant r == DeleteAll(d, keysToDelete[..i])
    {
      var key := keysToDelete[i];
      assert keysToDelete[..i + 1][..i] == keysToDelete[..i];
      if Has(r, key) {
        r := Remove(r, key);
      }
      i := i + 1;
    }
    assert keysToDelete[..i] == keysToDelete;
  }

  // ---------------------------------------------------------------- orientation

  /** `process_value` for row `i`: a list gives its `i`-th item (IndexError when it is
      too short), a dict is processed key by key, anything else is copied. */
  function ProcessValue(v: Value, i: nat): (r: Result<Value>)
    ensures v.List? ==> (r.Ok? <==> i < |v.items|)
    ensures v.List? && i < |v.items| ==> r == Ok(v.items[i])
    ensures v.Map? && r.Ok? ==> r.value.Map? && Keys(r.value.m) == Keys(v.m)
    ensures !v.List? && !v.Map? ==> r == Ok(v)
    ensures r.Err? ==> r.error == IndexError
    decreases v, 1
  {
    match v
    case List(items) => if i < |items| then Ok(items[i]) else Err(IndexError)
    case Map(m) =>
      var m' :- ProcessEntries(v, m, i);
      assert forall a :: 0 <= a < |m'| ==> m'[a].0 == Keys(m')[a] == Keys(m)[a];
      Ok(Map(m'))
    case _ => Ok(v)
  }

  /** `{k: process_value(x) for k, x in m.items()}` over a prefix `m` of `owner`'s entries. */
  function ProcessEntries(owner: Value, m: seq<(string, Value)>, i: nat): (r: Result<seq<(string, Value)>>)
    requires owner.Map? && |m| <= |owner.m| && m == owner.m[..|m|]
    ensures r.Ok? ==> Keys(r.value) == Keys(m)
    ensures (forall a :: 0 <= a < |m| ==> ProcessValue(m[a].1, i).Ok?) ==> r.Ok?
    ensures r.Ok? ==> forall a :: 0 <= a < |m| ==> ProcessValue(m[a].1, i) == Ok(r.value[a].1)
    ensures r.Err? ==> r.error == IndexError
    decreases owner, 0, |m|
  {
    if |m| == 0 then Ok([])
    else
      assert m[|m| - 1] == owner.m[|m| - 1];
      var init :- ProcessEntries(owner, m[..|m| - 1], i);
      var last :- ProcessValue(m[|m| - 1].1, i);
      Ok(init + [(m[|m| - 1].0, last)])
  }

  /** Row `i` of a table: `process_value` of the whole table. */
  function RowOf(input: Dict<Value>): nat -> Result<Value> {
    (i: nat) => ProcessValue(Map(input), i)
  }

  /** The records for rows `0 .. n-1`: row `i` is `process_value` of the whole table. */
  function Records(input: Dict<Value>, n: nat): (r: Result<seq<Value>>)
    ensures r.Ok? ==> |r.value| == n
    ensures r.Err? ==> r.error == IndexError
  {
    CollectErrorsAre(RowOf(input), n, IndexError);
    Collect(RowOf(input), n)
  }

  /** Record `i` is row `i` of the table, processed. */
  lemma RecordsAt(input: Dict<Value>, n: nat, i: nat)
    requires Records(input, n).Ok? && i < n
    ensures ProcessValue(Map(input), i) == Ok(Records(input, n).value[i])
  {
    assert RowOf(input)(i) == ProcessValue(Map(input), i);
  }

  /** `change_dict_orientation`, as a specification: `{'data': records}`, one record
      per element of the id column. */
  function ChangeDictOrientation(input: Dict<Value>, idKey: string): (r: Result<Dict<Value>>)
    ensures !Has(input, idKey) ==> r == Err(KeyError)
    ensures r.Ok? ==> Keys(r.value) == ["data"] && r.value[0].1.List?
  {
    var ids :- Lookup(input, idKey);
    var n :- Len(ids);
    var records :- Records(input, n);
    Ok(Oriented(records))
  }

  /** `{'data': records}` */
  function Oriented(records: seq<Value>): (r: Dict<Value>)
    ensures Keys(r) == ["data"] && r[0].1 == List(records)
  {
    [("data", List(records))]
  }

  /** The loop's exit once every row has been processed. */
  lemma ChangeDictOrientationDone(input: Dict<Value>, idKey: string, n: nat, data: seq<Value>)
    requires Lookup(input, idKey).Ok? && Len(Lookup(input, idKey).value) == Ok(n)
    requires Records(input, n) == Ok(data)
    ensures ChangeDictOrientation(input, idKey) == Ok(Oriented(data))
  {
  }

  /** The loop of `change_dict_orientation`, appending one record per id. */
  method ChangeDictOrientationLoop(input: Dict<Value>, idKey: string) returns (r: Result<Dict<Value>>)
    ensures r == ChangeDictOrientation(input, idKey)
  {
    var ids := Lookup(input, idKey);
    if ids.Err? {
      return Err(ids.error);
    }
    var n := Len(ids.value);
    if n.Err? {
      return Err(n.error);
    }
    var data: seq<Value> := [];
    var i := 0;
    while i < n.value
      invariant 0 <= i <= n.value
      invariant Records(input, i) == Ok(data)
    {
      var record := RowOf(input)(i);
      if record.Err? {
        RecordsStop(input, i, n.value);
        return Err(record.error);
      }
      RecordsSnoc(input, i, data);
      data := data + [record.value];
      i := i + 1;
    }
    ChangeDictOrientationDone(input, idKey, n.value, data);
    return Ok(Oriented(data));
  }

  /** A row that cannot be processed makes every longer run of rows fail. */
  lemma RecordsFails(input: Dict<Value>, i: nat, n: nat)
    requires i < n && ProcessValue(Map(input), i).Err?
    ensures Records(input, n) == Err(IndexError)
  {
    assert RowOf(input)(i).Err?;
  }

  /** The loop's step: one more row processed. */
  lemma RecordsSnoc(input: Dict<Value>, i: nat, data: seq<Value>)
    requires Records(input, i) == Ok(data) && RowOf(input)(i).Ok?
    ensures Records(input, i + 1) == Ok(data + [RowOf(input)(i).value])
  {
  }

  /** The loop's exit on a row that cannot be processed. */
  lemma RecordsStop(input: Dict<Value>, i: nat, n: nat)
    requires i < n && RowOf(input)(i).Err?
    ensures Records(input, n) == Err(RowOf(input)(i).error)
  {
  }

  /** Rows that can all be processed give records. */
  lemma RecordsOk(input: Dict<Value>, n: nat)
    requires forall i :: 0 <= i < n ==> ProcessValue(Map(input), i).Ok?
    ensures Records(input, n).Ok?
  {
    assert forall i: nat :: i < n ==> RowOf(input)(i).Ok?;
  }

  /** For a table of columns that are all lists at least as long as the id column,
      reorientation succeeds and record `i` maps every column to its `i`-th item, key
      order kept: the records are the transpose of the columns. */
  lemma ChangeDictOrientationTransposes(input: Dict<Value>, idKey: string)
    requires Has(input, idKey) && Get(input, idKey).value.List?
    requires forall a :: 0 <= a < |input| ==>
      input[a].1.List? && |input[a].1.items| >= |Get(input, idKey).value.items|
    ensures var n := |Get(input, idKey).value.items|;
      && Records(input, n).Ok?
      && ChangeDictOrientation(input, idKey) == Ok(Oriented(Records(input, n).value))
      && (forall i :: 0 <= i < n ==> Records(input, n).value[i].Map? && |Records(input, n).value[i].m| == |input|)
      && forall i, a :: 0 <= i < n && 0 <= a < |input| ==>
           Records(input, n).value[i].m[a] == (input[a].0, input[a].1.items[i])
  {
    var n := |Get(input, idKey).value.items|;
    assert input[..|input|] == input;
    forall i | 0 <= i < n ensures ProcessValue(Map(input), i).Ok? {
      assert forall a :: 0 <= a < |input| ==> ProcessValue(input[a].1, i).Ok?;
    }
    RecordsOk(input, n);
    var recs := Records(input, n).value;
    forall i, a | 0 <= i < n && 0 <= a < |input|
      ensures recs[i].Map? && |recs[i].m| == |input| && recs[i].m[a] == (input[a].0, input[a].1.items[i])
    {
      RecordsAt(input, n, i);
      var pe := ProcessEntries(Map(input), input, i);
      assert Keys(recs[i].m)[a] == Keys(input)[a];
    }
  }

  /** A column shorter than the id column makes reorientation fail with IndexError. */
  lemma ChangeDictOrientationShortColumn(input: Dict<Value>, idKey: string, a: nat)
    requires Has(input, idKey) && Get(input, idKey).value.List?
    requires a < |input| && input[a].1.List? && |input[a].1.items| < |Get(input, idKey).value.items|
    ensures ChangeDictOrientation(input, idKey) == Err(IndexError)
  {
    var i: nat := |input[a].1.items|;
    assert input[..|input|] == input;
    assert ProcessValue(input[a].1, i).Err?;
    RecordsFails(input, i, |Get(input, idKey).value.items|);
  }

  // ---------------------------------------------------------------- dtypes

  /** `str(i)` for an integer */
  function IntToString(i: int): string {
    if i < 0 then "-" + NatToString(-i) else NatToString(i)
  }

  /** `int(x) if x is not None and x != '' else None`. An int stays itself; `int()` of
      a float truncates, which this model does not compute (TypeError stands in). */
  function ToInt(x: Value): (r: Result<Value>)
    ensures x == Null || x == Str("") ==> r == Ok(Null)
    ensures r.Ok? && r.value != Null ==> r.value.Int?
    ensures r.Err? ==> r.error == ValueError || r.error == TypeError
  {
    match x
    case Null => Ok(Null)
    case Str(s) =>
      if s == "" then Ok(Null)
      else if ParseInt(s).Some? then Ok(Int(ParseInt(s).value))
      else Err(ValueError)
    case Int(_) => Ok(x)
    case _ => Err(TypeError)
  }

  /** `float(x) if x is not None and x != '' else None`, the float kept as its text. */
  function ToFloat(x: Value): (r: Result<Value>)
    ensures x == Null || x == Str("") ==> r == Ok(Null)
    ensures r.Ok? && r.value != Null ==> r.value.Float?
    ensures r.Err? ==> r.error == ValueError || r.error == TypeError
  {
    match x
    case Null => Ok(Null)
    case Str(s) =>
      if s == "" then Ok(Null)
      else if IsFloatText(s) then Ok(Float(s))
      else Err(ValueError)
    case Int(i) => Ok(Float(IntToString(i)))
    case Float(_) => Ok(x)
    case _ => Err(TypeError)
  }

  /** `convert_list_from_str`: every element converted to `int` or `float`; any other
      target returns the input unchanged. */
  function ConvertListFromStr(v: Value, convertTo: string): (r: Result<Value>)
    ensures convertTo != "int" && convertTo != "float" ==> r == Ok(v)
    ensures convertTo == "int" ==> r == MapOver(v, ToInt)
    ensures convertTo == "float" ==> r == MapOver(v, ToFloat)
  {
    if convertTo == "int" then MapOver(v, ToInt)
    else if convertTo == "float" then MapOver(v, ToFloat)
    else Ok(v)
  }

  /** Converting the decimal texts of natural numbers gives the numbers back, and
      blanks (None or '') become None. */
  lemma ConvertListFromStrRoundTrip(ns: seq<Option<nat>>)
    ensures ConvertListFromStr(
        List(seq(|ns|, k requires 0 <= k < |ns| => if ns[k].Some? then Str(NatToString(ns[k].value)) else Str(""))),
        "int")
      == Ok(List(seq(|ns|, k requires 0 <= k < |ns| => if ns[k].Some? then Int(ns[k].value) else Null)))
  {
    var xs := seq(|ns|, k requires 0 <= k < |ns| => if ns[k].Some? then Str(NatToString(ns[k].value)) else Str(""));
    var ys := seq(|ns|, k requires 0 <= k < |ns| => if ns[k].Some? then Int(ns[k].value) else Null);
    forall k | 0 <= k < |ns| ensures ToInt(xs[k]) == Ok(ys[k]) {
      if ns[k].Some? {
        ParseIntOfNat(ns[k].value);
      }
    }
    assert MapResult(xs, ToInt).Ok?;
    var zs := MapResult(xs, ToInt).value;
    assert zs == ys;
    assert Iterate(List(xs)) == Ok(xs);
  }

  /** Non-numeric, non-blank text makes an int conversion fail with ValueError. */
  lemma ConvertListFromStrRejects(items: seq<Value>, k: nat)
    requires k < |items| && items[k].Str? && items[k].s != "" && ParseInt(items[k].s).None?
    ensures ConvertListFromStr(List(items), "int").Err?
  {
    assert ToInt(items[k]).Err?;
  }

  /** The conversion `convert_dict_dtypes` applies to the column under key `k`: int
      keys take precedence over float keys. */
  function ConvertEntry(k: string, v: Value, intKeys: seq<string>, floatKeys: seq<string>): Result<Value> {
    if k in intKeys then ConvertListFromStr(v, "int")
    else if k in floatKeys then ConvertListFromStr(v, "float")
    else Ok(v)
  }

  /** `ConvertEntry` as the function `MapValues` applies to each entry. */
  function Converter(intKeys: seq<string>, floatKeys: seq<string>): (string, Value) -> Result<Value> {
    (k: string, v: Value) => ConvertEntry(k, v, intKeys, floatKeys)
  }

  /** `convert_dict_dtypes`, as a specification: the keys keep their order and each
      column is converted according to its key; it fails exactly when some column does
      not convert. */
  function ConvertedDtypes(d: Dict<Value>, intKeys: seq<string>, floatKeys: seq<string>): (r: Result<Dict<Value>>)
    ensures r.Ok? ==> Keys(r.value) == Keys(d)
    ensures r.Ok? ==> forall j :: 0 <= j < |d| ==> ConvertEntry(d[j].0, d[j].1, intKeys, floatKeys) == Ok(r.value[j].1)
    ensures r.Ok? <==> forall j :: 0 <= j < |d| ==> ConvertEntry(d[j].0, d[j].1, intKeys, floatKeys).Ok?
  {
    MapValues(d, Converter(intKeys, floatKeys))
  }

  method ConvertDictDtypes(d: Dict<Value>, intKeys: seq<string>, floatKeys: seq<string>) returns (r: Result<Dict<Value>>)
    ensures r == ConvertedDtypes(d, intKeys, floatKeys)
  {
    ghost var f := Converter(intKeys, floatKeys);
    var cur := d;
    var i := 0;
    while i < |d|
      invariant TranslatedUpTo(d, f, cur, i)
    {
      var k := cur[i].0;
      var converted := if k in intKeys then ConvertListFromStr(cur[i].1, "int")
        else if k in floatKeys then ConvertListFromStr(cur[i].1, "float")
        else Ok(cur[i].1);
      assert converted == f(d[i].0, d[i].1);
      if converted.Err? {
        MapValuesLoopStep(d, f, i, cur[..i]);
        return Err(converted.error);
      }
      TranslatedStep(d, f, cur, i, converted.value);
      cur := SetItem(cur, k, converted.value);
      i := i + 1;
    }
    TranslatedDone(d, f, cur);
    return Ok(cur);
  }

  /** After conversion each column holds what its key calls for: ints for int keys
      (even when the key is also a float key), floats for float keys, the original
      column otherwise. */
  lemma GetConvertedDtypes(d: Dict<Value>, intKeys: seq<string>, floatKeys: seq<string>, k: string)
    requires ConvertedDtypes(d, intKeys, floatKeys).Ok? && Has(d, k)
    ensures var r := ConvertedDtypes(d, intKeys, floatKeys).value;
      Get(r, k).Some? &&
      Ok(Get(r, k).value) == (if k in intKeys then ConvertListFromStr(Get(d, k).value, "int")
        else if k in floatKeys then ConvertListFromStr(Get(d, k).value, "float")
        else Ok(Get(d, k).value))
  {
    var r := ConvertedDtypes(d, intKeys, floatKeys).value;
    var j := Find(d, k);
    FindOfKey(r, j);
  }

  // ---------------------------------------------------------------- string cleaners

  /** Length of the leading lower-case abbreviation `^[a-z]{2,3}`: 3, 2, or 0 for none. */
  function AbbrevLength(s: string): (n: nat)
    ensures n == 0 || n == 2 || n == 3
    ensures n <= |s| && forall k :: 0 <= k < n ==> IsLower(s[k])
  {
    if |s| >= 3 && IsLower(s[0]) && IsLower(s[1]) && IsLower(s[2]) then 3
    else if |s| >= 2 && IsLower(s[0]) && IsLower(s[1]) then 2
    else 0
  }

  /** What `(.*)` captures: the text up to the first line break. */
  function FirstLine(s: string): string {
    s[..IndexOfAny(s, '\n', '\n')]
  }

  /** `clean_team_name`: a leading 2-3 letter lower-case abbreviation is removed (with
      anything after a line break), then, if a dash remains, the last dash-separated
      part is dropped and the others are joined with blanks. */
  function CleanTeamName(name: string): string {
    var n := AbbrevLength(name);
    var rest := if n > 0 then FirstLine(name[n..]) else name;
    var parts := Split(rest, '-');
    if |parts| > 1 then Join(parts[..|parts| - 1], " ") else rest
  }

  /** A cleaned name never contains a dash; a name with neither an abbreviation nor a
      dash is left alone; and a name `a-b` keeps `a`. */
  lemma CleanTeamNameProperties(name: string)
    ensures '-' !in CleanTeamName(name)
    ensures AbbrevLength(name) == 0 && '-' !in name ==> CleanTeamName(name) == name
  {
    var n := AbbrevLength(name);
    var rest := if n > 0 then FirstLine(name[n..]) else name;
    var parts := Split(rest, '-');
    SplitFieldsFree(rest, '-');
    if |parts| > 1 {
      JoinFree(parts[..|parts| - 1], " ", '-');
    } else {
      JoinSplit(rest, '-');
    }
    if n == 0 && '-' !in name {
      SplitWithoutSep(name, '-');
    }
  }

  lemma CleanTeamNameDropsLastPart(a: string, b: string)
    requires AbbrevLength(a + "-" + b) == 0 && '-' !in a && '-' !in b
    ensures CleanTeamName(a + "-" + b) == a
  {
    var s := a + "-" + b;
    SplitAround(a, b, '-');
  }

  lemma SplitAround(a: string, b: string, c: char)
    requires c !in a && c !in b
    ensures Split(a + [c] + b, c) == [a, b]
    decreases |a|
  {
    if |a| == 0 {
      assert ([c] + b)[1..] == b;
      SplitWithoutSep(b, c);
    } else {
      assert (a + [c] + b)[1..] == a[1..] + [c] + b;
      SplitAround(a[1..], b, c);
      assert [a[0]] + a[1..] == a;
    }
  }

  /** A country-code prefix is removed: a 3-letter one (as in "engEngland"), or a
      2-letter one before a name that does not start with a lower-case letter. */
  lemma CleanTeamNameDropsAbbrev(abbrev: string, rest: string)
    requires |abbrev| == 3 || (|abbrev| == 2 && (rest == [] || !IsLower(rest[0])))
    requires forall k :: 0 <= k < |abbrev| ==> IsLower(abbrev[k])
    requires '\n' !in rest && '-' !in rest
    ensures CleanTeamName(abbrev + rest) == rest
  {
    var s := abbrev + rest;
    assert AbbrevLength(s) == |abbrev|;
    assert s[|abbrev|..] == rest;
    assert IndexOfAny(rest, '\n', '\n') == |rest|;
    assert rest[..|rest|] == rest;
    SplitWithoutSep(rest, '-');
  }

  /** The goals of a match decided on penalties, `X (Y)` starting at `i`, as
      `(\d+)\s*\((\d+)\)`: the group is the maximal digit run `X`. */
  function ShootoutAt(s: string, i: nat): (r: Option<string>)
    requires i <= |s|
    ensures r.Some? ==> IsDigits(r.value)
  {
    var n := RunLength(Digit, s, i);
    if n == 0 then None
    else
      var k := i + n + RunLength(Space, s, i + n);
      if k < |s| && s[k] == '(' then
        var m := RunLength(Digit, s, k + 1);
        if m > 0 && k + 1 + m < |s| && s[k + 1 + m] == ')' then Some(s[i..i + n]) else None
      else None
  }

  function FirstShootout(s: string, i: nat): (r: Option<string>)
    requires i <= |s|
    ensures r.Some? ==> IsDigits(r.value)
    decreases |s| - i
  {
    if ShootoutAt(s, i).Some? then ShootoutAt(s, i)
    else if i == |s| then None
    else FirstShootout(s, i + 1)
  }

  /** `clean_gf_ga`: the goals before the penalty count, or the text unchanged. */
  function CleanGfGa(s: string): (r: string)
    ensures r == s || IsDigits(r)
  {
    match FirstShootout(s, 0)
    case Some(g) => g
    case None => s
  }

  /** "X (Y)" with any blanks before the parenthesis gives "X"; a score without a
      parenthesis is unchanged. */
  lemma CleanGfGaOfShootout(x: string, blanks: string, y: string)
    requires IsDigits(x) && IsDigits(y) && forall k :: 0 <= k < |blanks| ==> IsSpace(blanks[k])
    ensures CleanGfGa(x + blanks + "(" + y + ")") == x
  {
    var s := x + blanks + "(" + y + ")";
    var k := |x| + |blanks|;
    assert s[0..|x|] == x;
    assert s[|x|..k] == blanks;
    assert s[k] == '(';
    assert s[k + 1..k + 1 + |y|] == y;
    assert s[k + 1 + |y|] == ')';
    ShootoutOfSlices(s, |x|, |blanks|, |y|);
  }

  /** The slice form: digits, blanks, '(' digits ')' from the start of `s`. */
  lemma ShootoutOfSlices(s: string, nx: nat, nb: nat, ny: nat)
    requires nx + nb + ny + 1 < |s|
    requires IsDigits(s[0..nx]) && IsDigits(s[nx + nb + 1..nx + nb + 1 + ny])
    requires AllIn(Space, s[nx..nx + nb])
    requires s[nx + nb] == '(' && s[nx + nb + 1 + ny] == ')'
    ensures CleanGfGa(s) == s[0..nx]
  {
    assert AllIn(Digit, s[0..nx]);
    RunOfId(Digit, s, 0, nx);
    RunOfId(Space, s, nx, nb);
    assert AllIn(Digit, s[nx + nb + 1..nx + nb + 1 + ny]);
    RunOfId(Digit, s, nx + nb + 1, ny);
    ShootoutAtRuns(s, nx, nb, ny);
    assert FirstShootout(s, 0) == Some(s[0..nx]);
  }

  /** The runs `ShootoutAt` measures, given, determine its answer. */
  lemma ShootoutAtRuns(s: string, nx: nat, nb: nat, ny: nat)
    requires nx + nb + ny + 1 < |s| && nx > 0 && ny > 0
    requires RunLength(Digit, s, 0) == nx && RunLength(Space, s, nx) == nb
    requires RunLength(Digit, s, nx + nb + 1) == ny
    requires s[nx + nb] == '(' && s[nx + nb + 1 + ny] == ')'
    ensures ShootoutAt(s, 0) == Some(s[0..nx])
  {
  }

  lemma {:induction false} CleanGfGaPlain(s: string)
    requires '(' !in s
    ensures CleanGfGa(s) == s
  {
    NoShootoutFrom(s, 0);
  }

  lemma {:induction false} NoShootoutFrom(s: string, i: nat)
    requires i <= |s| && '(' !in s
    ensures FirstShootout(s, i).None?
    decreases |s| - i
  {
    if i < |s| {
      NoShootoutFrom(s, i + 1);
    }
  }

  /** `get_league_type_adv`: the registry entry's `has_adv_stats` and `comp_type`, or
      `None` when anything on the way is missing. */
  function GetLeagueTypeAdv(registry: Dict<Value>, leagueId: string): (r: Option<(Value, Value)>)
    ensures r.Some? <==>
      Has(registry, leagueId) && Get(registry, leagueId).value.Map?
      && Has(Get(registry, leagueId).value.m, "has_adv_stats") && Has(Get(registry, leagueId).value.m, "comp_type")
    ensures r.Some? ==> var e := Get(registry, leagueId).value.m;
      r.value == (Get(e, "has_adv_stats").value, Get(e, "comp_type").value)
  {
    match Get(registry, leagueId)
    case None => None
    case Some(entry) =>
      if !entry.Map? then None
      else
        match (Get(entry.m, "has_adv_stats"), Get(entry.m, "comp_type"))
        case (Some(adv), Some(kind)) => Some((adv, kind))
        case _ => None
  }
}
