/** The leagues scraper: every competition a country's page lists, in four categories
    (domestic leagues, domestic cups, international club competitions, national team
    competitions). The international and national team categories merge several
    tables, keeping each competition name once, at its first appearance. */
module Leagues {
  import opened Wrappers
  import opened Text
  import opened Lists
  import opened Dicts
  import opened Values
  import opened Patterns
  import opened FbrefScraper

  /** `reorder_leagues_dict_keys`' order. */
  const LeaguesOrder: seq<string> :=
    ["league_id", "competition_name", "gender", "first_season", "last_season", "tier"]

  /** `convert_leagues_dict_dtypes`' integer columns (it has no float columns). */
  const IntKeys: seq<string> := ["league_id"]

  /** The categories of `scrape_leagues_data`, in its order. */
  const Categories: seq<string> :=
    ["domestic_leagues", "domestic_cups", "international_competitions", "national_team_competitions"]

  // ---------------------------------------------------------------- competition names

  /** The characters of `s` that are not whitespace, in order. */
  function NonSpace(s: string): string
    decreases |s|
  {
    if |s| == 0 then "" else (if IsSpace(s[0]) then "" else [s[0]]) + NonSpace(s[1..])
  }

  /** Dropping leading whitespace keeps the other characters. */
  lemma {:induction false} NonSpaceStripLeft(s: string)
    ensures NonSpace(StripLeft(s)) == NonSpace(s)
    decreases |s|
  {
    if |s| > 0 && IsSpace(s[0]) {
      NonSpaceStripLeft(s[1..]);
    }
  }

  /** `re.sub(r'\s+', ' ', s)`: every run of whitespace becomes one space. */
  function CollapseSpaces(s: string): (r: string)
    ensures |s| > 0 ==> |r| > 0 && r[0] == (if IsSpace(s[0]) then ' ' else s[0])
    decreases |s|
  {
    if |s| == 0 then ""
    else if IsSpace(s[0]) then " " + CollapseSpaces(StripLeft(s[1..]))
    else [s[0]] + CollapseSpaces(s[1..])
  }

  /** The only whitespace in `r` is single spaces. */
  predicate SingleSpaced(r: string) {
    && (forall k :: 0 <= k < |r| && IsSpace(r[k]) ==> r[k] == ' ')
    && (forall k :: 0 <= k < |r| - 1 ==> !(r[k] == ' ' && r[k + 1] == ' '))
  }

  /** The only whitespace left is single spaces, and every other character comes from
      the text. */
  lemma CollapseSpacesShape(s: string)
    ensures SingleSpaced(CollapseSpaces(s))
    ensures forall k :: 0 <= k < |CollapseSpaces(s)| ==> CollapseSpaces(s)[k] == ' ' || CollapseSpaces(s)[k] in s
  {
    CollapseSpacesSingle(s);
    CollapseSpacesFrom(s);
  }

  /** The text after the first character that `CollapseSpaces` goes on with, and the
      first character of the result. */
  lemma CollapseSpacesHead(s: string)
    requires |s| > 0
    ensures var rest := if IsSpace(s[0]) then StripLeft(s[1..]) else s[1..];
      CollapseSpaces(s) == [if IsSpace(s[0]) then ' ' else s[0]] + CollapseSpaces(rest)
  {
  }

  lemma {:induction false} CollapseSpacesSingle(s: string)
    ensures SingleSpaced(CollapseSpaces(s))
    decreases |s|
  {
    if |s| > 0 {
      var rest := if IsSpace(s[0]) then StripLeft(s[1..]) else s[1..];
      CollapseSpacesSingle(rest);
      var tail := CollapseSpaces(rest);
      var r := CollapseSpaces(s);
      CollapseSpacesHead(s);
      forall k | 0 <= k < |r| && IsSpace(r[k]) ensures r[k] == ' ' {
        if k > 0 {
          assert r[k] == tail[k - 1];
        }
      }
      forall k | 0 <= k < |r| - 1 ensures !(r[k] == ' ' && r[k + 1] == ' ') {
        assert r[k + 1] == tail[k];
        if k > 0 {
          assert r[k] == tail[k - 1];
        } else if IsSpace(s[0]) {
          assert tail[0] == rest[0] && !IsSpace(rest[0]);
        }
      }
    }
  }

  /** The text `CollapseSpaces` goes on with is a suffix of `s`. */
  lemma CollapseSpacesRestChars(s: string)
    requires |s| > 0
    ensures var rest := if IsSpace(s[0]) then StripLeft(s[1..]) else s[1..];
      forall c :: c in rest ==> c in s
  {
    var rest := if IsSpace(s[0]) then StripLeft(s[1..]) else s[1..];
    assert rest == s[|s| - |rest|..];
  }

  lemma {:induction false} CollapseSpacesFrom(s: string)
    ensures forall k :: 0 <= k < |CollapseSpaces(s)| ==> CollapseSpaces(s)[k] == ' ' || CollapseSpaces(s)[k] in s
    decreases |s|
  {
    if |s| > 0 {
      var rest := if IsSpace(s[0]) then StripLeft(s[1..]) else s[1..];
      CollapseSpacesFrom(rest);
      var tail := CollapseSpaces(rest);
      var r := CollapseSpaces(s);
      CollapseSpacesHead(s);
      CollapseSpacesRestChars(s);
      forall k | 0 <= k < |r| ensures r[k] == ' ' || r[k] in s {
        if k > 0 {
          assert r[k] == tail[k - 1];
          assert tail[k - 1] == ' ' || tail[k - 1] in rest;
        }
      }
    }
  }

  /** The characters other than whitespace keep their order. */
  lemma {:induction false} CollapseSpacesKeeps(s: string)
    ensures NonSpace(CollapseSpaces(s)) == NonSpace(s)
    decreases |s|
  {
    if |s| > 0 {
      if IsSpace(s[0]) {
        CollapseSpacesKeeps(StripLeft(s[1..]));
        NonSpaceStripLeft(s[1..]);
        assert NonSpace(" " + CollapseSpaces(StripLeft(s[1..]))) == NonSpace(CollapseSpaces(StripLeft(s[1..])));
      } else {
        CollapseSpacesKeeps(s[1..]);
        var r := [s[0]] + CollapseSpaces(s[1..]);
        assert r[1..] == CollapseSpaces(s[1..]);
      }
    }
  }

  /** Text whose only whitespace is single spaces is left alone. */
  lemma {:induction false} CollapseSpacesNoop(s: string)
    requires SingleSpaced(s)
    ensures CollapseSpaces(s) == s
    decreases |s|
  {
    if |s| > 0 {
      if IsSpace(s[0]) {
        assert |s| == 1 || !IsSpace(s[1]);
        assert StripLeft(s[1..]) == s[1..];
      }
      CollapseSpacesNoop(s[1..]);
    }
  }

  /** Collapsing twice is collapsing once. */
  lemma CollapseSpacesIdempotent(s: string)
    ensures CollapseSpaces(CollapseSpaces(s)) == CollapseSpaces(s)
  {
    CollapseSpacesShape(s);
    CollapseSpacesNoop(CollapseSpaces(s));
  }

  /** The competition name taken from a URL, as `format_league_tables` cleans it:
      every '-' becomes a space, then whitespace runs collapse to one space. No dash
      and no double space is left, and the other characters keep their order. */
  function CleanCompetitionName(s: string): (r: string)
    ensures '-' !in r
    ensures SingleSpaced(r)
    ensures NonSpace(r) == NonSpace(MapChar(s, '-', " "))
  {
    var spaced := MapChar(s, '-', " ");
    MapCharPointwise(s, '-', ' ');
    CollapseSpacesShape(spaced);
    CollapseSpacesKeeps(spaced);
    CollapseSpaces(spaced)
  }

  /** Cleaning a cleaned name changes nothing. */
  lemma CleanCompetitionNameIdempotent(s: string)
    ensures CleanCompetitionName(CleanCompetitionName(s)) == CleanCompetitionName(s)
  {
    var r := CleanCompetitionName(s);
    MapCharKeepsOthers(r, '-', " ");
    CollapseSpacesNoop(r);
  }

  /** A dashed URL slug gives the words separated by single spaces:
      "Copa-Libertadores" gives "Copa Libertadores". */
  lemma CleanCompetitionNameOfSlug(a: string, b: string)
    requires |a| > 0 && |b| > 0
    requires forall k :: 0 <= k < |a| ==> !IsSpace(a[k]) && a[k] != '-'
    requires forall k :: 0 <= k < |b| ==> !IsSpace(b[k]) && b[k] != '-'
    ensures CleanCompetitionName(a + "-" + b) == a + " " + b
  {
    var s := a + "-" + b;
    MapCharPointwise(s, '-', ' ');
    var spaced := MapChar(s, '-', " ");
    assert spaced == a + " " + b;
    CollapseSpacesNoop(a + " " + b);
  }

  function CleanNames(names: seq<string>): (r: seq<string>)
    ensures |r| == |names| && forall k :: 0 <= k < |names| ==> r[k] == CleanCompetitionName(names[k])
  {
    seq(|names|, k requires 0 <= k < |names| => CleanCompetitionName(names[k]))
  }

  // ---------------------------------------------------------------- format_league_tables

  /** The rows' competition ids (`comps/(\d+)/`), one per row that links to one. */
  function LeagueIds(t: Table): seq<string> {
    ItemsOf(ParseTableRows(t), [UrlMatcher(CompId)]).value
  }

  /** `format_league_tables`: the table's columns, with 'league_id' set to the ids of
      its links and, when names are asked for, 'competition_name' set to the cleaned
      names the name patterns find in its links. */
  function FormatLeagueTable(t: Table, getNames: bool, namePatterns: seq<Matcher>): (r: Result<Dict<Value>>)
    ensures ParseTableData(t, false, 0, false).Err? ==> r == Err(ParseTableData(t, false, 0, false).error)
    ensures r.Ok? ==> ParseTableData(t, false, 0, false).Ok?
    ensures r.Ok? ==> Get(r.value, "league_id") == Some(List(Strs(LeagueIds(t))))
    ensures r.Ok? && getNames ==>
      && ItemsOf(ParseTableRows(t), namePatterns).Ok?
      && Get(r.value, "competition_name") == Some(List(Strs(CleanNames(ItemsOf(ParseTableRows(t), namePatterns).value))))
    ensures r.Ok? ==> forall k :: k != "league_id" && (getNames ==> k != "competition_name") ==>
      Get(r.value, k) == Get(ParseTableData(t, false, 0, false).value, k)
    ensures !getNames ==> (r.Ok? <==> ParseTableData(t, false, 0, false).Ok?)
  {
    var d :- ParseTableData(t, false, 0, false);
    var d1 := SetItem(d, "league_id", List(Strs(LeagueIds(t))));
    GetSetItemAll(d, "league_id", List(Strs(LeagueIds(t))));
    if !getNames then Ok(d1)
    else
      var names :- ItemsOf(ParseTableRows(t), namePatterns);
      GetSetItemAll(d1, "competition_name", List(Strs(CleanNames(names))));
      Ok(SetItem(d1, "competition_name", List(Strs(CleanNames(names)))))
  }

  lemma GetSetItemAll(d: Dict<Value>, k: string, v: Value)
    ensures Get(SetItem(d, k, v), k) == Some(v)
    ensures forall k' :: k' != k ==> Get(SetItem(d, k, v), k') == Get(d, k')
  {
    forall k' ensures Get(SetItem(d, k, v), k') == if k' == k then Some(v) else Get(d, k') {
      GetSetItem(d, k, v, k');
    }
  }

  /** `format_league_tables` as the source runs it, assigning into the parsed dict. */
  method FormatLeagueTableSteps(t: Table, getNames: bool, namePatterns: seq<Matcher>) returns (r: Result<Dict<Value>>)
    ensures r == FormatLeagueTable(t, getNames, namePatterns)
  {
    var d :- ParseTableData(t, false, 0, false);
    var ids := GetAllItemsFromTableUrls(t, [UrlMatcher(CompId)]);
    d := SetItem(d, "league_id", List(Strs(ids.value)));
    if getNames {
      var names :- GetAllItemsFromTableUrls(t, namePatterns);
      d := SetItem(d, "competition_name", List(Strs(CleanNames(names))));
    }
    return Ok(d);
  }

  // ---------------------------------------------------------------- merging tables

  /** The three parallel lists the merge loops append to. */
  datatype Merged = Merged(names: seq<Value>, ids: seq<Value>, genders: seq<Value>)

  const NoneMerged := Merged([], [], [])

  predicate WellFormed(m: Merged) {
    |m.names| == |m.ids| == |m.genders| && Distinct(m.names)
  }

  /** `acc` is what `m` started from: each list of `m` extends the one of `acc`. */
  predicate Extends(m: Merged, acc: Merged) {
    acc.names <= m.names && acc.ids <= m.ids && acc.genders <= m.genders
  }

  /** `data_dict['league_id'][p]` */
  function IdAt(d: Dict<Value>, p: nat): Result<Value> {
    var col :- Lookup(d, "league_id");
    IndexAt(col, p)
  }

  /** The gender of row `p`: the fixed one when there is one (national team tables),
      `data_dict['gender'][p]` otherwise. */
  function GenderAt(d: Dict<Value>, gender: Option<Value>, p: nat): Result<Value> {
    if gender.Some? then Ok(gender.value)
    else
      var col :- Lookup(d, "gender");
      IndexAt(col, p)
  }

  /** The merge loop over the first `n` names of one table: a name not seen before is
      appended with the id and gender of its row; a name already seen is skipped. */
  function MergeRows(acc: Merged, d: Dict<Value>, names: seq<Value>, gender: Option<Value>, n: nat): (r: Result<Merged>)
    requires WellFormed(acc) && n <= |names|
    ensures r.Ok? ==> WellFormed(r.value) && Extends(r.value, acc)
  {
    if n == 0 then Ok(acc)
    else
      var m: nat := n - 1;
      var prev :- MergeRows(acc, d, names, gender, m);
      MergeRow(prev, d, names, gender, m)
  }

  /** Row `m` of the merge loop. */
  function MergeRow(prev: Merged, d: Dict<Value>, names: seq<Value>, gender: Option<Value>, m: nat): (r: Result<Merged>)
    requires WellFormed(prev) && m < |names|
    ensures r.Ok? ==> WellFormed(r.value) && Extends(r.value, prev)
  {
    var name := names[m];
    if name in prev.names then Ok(prev)
    else
      var id :- IdAt(d, m);
      var g :- GenderAt(d, gender, m);
      Ok(Merged(prev.names + [name], prev.ids + [id], prev.genders + [g]))
  }

  lemma MergeRowsSnoc(acc: Merged, d: Dict<Value>, names: seq<Value>, gender: Option<Value>, m: nat)
    requires WellFormed(acc) && m < |names|
    ensures MergeRows(acc, d, names, gender, m).Err? ==>
      MergeRows(acc, d, names, gender, m + 1) == MergeRows(acc, d, names, gender, m)
    ensures MergeRows(acc, d, names, gender, m).Ok? ==>
      MergeRows(acc, d, names, gender, m + 1) == MergeRow(MergeRows(acc, d, names, gender, m).value, d, names, gender, m)
  {
    var n: nat := m + 1;
    assert n - 1 == m;
  }

  /** The names of `r` are those of `acc` and those of the first `n` rows. */
  ghost predicate Covers(acc: Merged, names: seq<Value>, n: nat, r: Merged)
    requires n <= |names|
  {
    forall x :: x in r.names <==> x in acc.names || x in names[..n]
  }

  /** Every name `r` adds to `acc` is new, and is taken at its first row among the
      first `n`, with that row's id and gender. */
  predicate AddedAtFirst(acc: Merged, d: Dict<Value>, names: seq<Value>, gender: Option<Value>, n: nat, r: Merged)
    requires WellFormed(r)
  {
    forall k :: |acc.names| <= k < |r.names| ==>
      && r.names[k] !in acc.names
      && FirstIndex(names, r.names[k]) < n
      && IdAt(d, FirstIndex(names, r.names[k])) == Ok(r.ids[k])
      && GenderAt(d, gender, FirstIndex(names, r.names[k])) == Ok(r.genders[k])
  }

  /** The names `r` adds to `acc` keep the order of their first rows. */
  predicate AddedInOrder(acc: Merged, names: seq<Value>, r: Merged) {
    forall k, k' :: |acc.names| <= k < k' < |r.names| ==>
      FirstIndex(names, r.names[k]) < FirstIndex(names, r.names[k'])
  }

  /** One row of the merge, seen from the loop: the row's name is skipped when it is
      already merged, otherwise appended with its row's id and gender. */
  lemma MergeRowsNext(acc: Merged, d: Dict<Value>, names: seq<Value>, gender: Option<Value>, m: nat, prev: Merged)
    requires WellFormed(acc) && m < |names| && MergeRows(acc, d, names, gender, m) == Ok(prev)
    ensures names[m] in prev.names ==> MergeRows(acc, d, names, gender, m + 1) == Ok(prev)
    ensures names[m] !in prev.names && MergeRows(acc, d, names, gender, m + 1).Ok? ==>
      && IdAt(d, m).Ok? && GenderAt(d, gender, m).Ok?
      && MergeRows(acc, d, names, gender, m + 1).value
         == Merged(prev.names + [names[m]], prev.ids + [IdAt(d, m).value], prev.genders + [GenderAt(d, gender, m).value])
  {
    var n: nat := m + 1;
    assert n - 1 == m;
  }

  lemma CoversNext(acc: Merged, names: seq<Value>, m: nat, prev: Merged, next: Merged)
    requires m < |names| && Covers(acc, names, m, prev)
    requires next == prev || next.names == prev.names + [names[m]]
    requires next == prev ==> names[m] in prev.names
    ensures Covers(acc, names, m + 1, next)
  {
    assert names[..m + 1] == names[..m] + [names[m]];
  }

  lemma AddedAtFirstNext(acc: Merged, d: Dict<Value>, names: seq<Value>, gender: Option<Value>, m: nat, prev: Merged, next: Merged)
    requires m < |names| && WellFormed(prev) && WellFormed(next)
    requires AddedAtFirst(acc, d, names, gender, m, prev) && Covers(acc, names, m, prev)
    requires |acc.names| <= |prev.names|
    requires next == prev || (
      && names[m] !in prev.names && IdAt(d, m).Ok? && GenderAt(d, gender, m).Ok?
      && next == Merged(prev.names + [names[m]], prev.ids + [IdAt(d, m).value], prev.genders + [GenderAt(d, gender, m).value]))
    ensures AddedAtFirst(acc, d, names, gender, m + 1, next)
  {
    if next != prev {
      assert names[m] !in names[..m];
      FirstIndexAt(names, m, names[m]);
      forall k | |acc.names| <= k < |prev.names|
        ensures next.names[k] == prev.names[k] && next.ids[k] == prev.ids[k] && next.genders[k] == prev.genders[k]
      {
      }
    }
  }

  lemma AddedInOrderNext(acc: Merged, names: seq<Value>, m: nat, prev: Merged, next: Merged)
    requires m < |names| && AddedInOrder(acc, names, prev)
    requires forall k :: |acc.names| <= k < |prev.names| ==> FirstIndex(names, prev.names[k]) < m
    requires next == prev || (next.names == prev.names + [names[m]] && names[m] !in names[..m])
    ensures AddedInOrder(acc, names, next)
  {
    if next != prev {
      FirstIndexAt(names, m, names[m]);
    }
  }

  /** The names merged are those seen before and those of the first `n` rows; every
      name added is taken at its first row in the table, with that row's id and
      gender, and the names added keep the order of those rows. */
  lemma {:induction false} MergeRowsShape(acc: Merged, d: Dict<Value>, names: seq<Value>, gender: Option<Value>, n: nat)
    requires WellFormed(acc) && n <= |names| && MergeRows(acc, d, names, gender, n).Ok?
    ensures var r := MergeRows(acc, d, names, gender, n).value;
      && Covers(acc, names, n, r)
      && AddedAtFirst(acc, d, names, gender, n, r)
      && AddedInOrder(acc, names, r)
  {
    if n > 0 {
      var m: nat := n - 1;
      var prev := MergeRows(acc, d, names, gender, m).value;
      var next := MergeRows(acc, d, names, gender, n).value;
      MergeRowsShape(acc, d, names, gender, m);
      MergeRowsNext(acc, d, names, gender, m, prev);
      CoversNext(acc, names, m, prev, next);
      AddedAtFirstNext(acc, d, names, gender, m, prev, next);
      AddedInOrderNext(acc, names, m, prev, next);
    }
  }

  /** One table of the merge: the loop over its 'competition_name' column. */
  function MergeTable(acc: Merged, d: Dict<Value>, gender: Option<Value>): (r: Result<Merged>)
    requires WellFormed(acc)
    ensures r.Ok? ==> WellFormed(r.value) && Extends(r.value, acc)
  {
    var col :- Lookup(d, "competition_name");
    var names :- Iterate(col);
    MergeRows(acc, d, names, gender, |names|)
  }

  /** The merge of several tables, in order: a name keeps the row of the first table
      that lists it. */
  function MergeTables(acc: Merged, ds: seq<Dict<Value>>, gender: Option<Value>): (r: Result<Merged>)
    requires WellFormed(acc)
    ensures r.Ok? ==> WellFormed(r.value) && Extends(r.value, acc)
  {
    if |ds| == 0 then Ok(acc)
    else
      var prev :- MergeTables(acc, ds[..|ds| - 1], gender);
      MergeTable(prev, ds[|ds| - 1], gender)
  }

  /** The merged lists as the category's columns. */
  function MergedDict(m: Merged): Dict<Value> {
    [("competition_name", List(m.names)), ("league_id", List(m.ids)), ("gender", List(m.genders))]
  }

  // ---------------------------------------------------------------- the four categories

  /** `if data_dict:` for what `format_league_tables` returns (a dict) or None. */
  predicate Truthy(v: Value) {
    v.Map? && |v.m| > 0
  }

  /** The tables whose name mentions 'Qualifiers', formatted with their names. A table
      without a caption has no name, and the membership test on None raises
      TypeError. */
  function QualifierTables(tables: seq<Table>, namePatterns: seq<Matcher>): (r: Result<seq<Dict<Value>>>)
    ensures r.Ok? ==> |r.value| <= |tables|
  {
    if |tables| == 0 then Ok([])
    else
      var prev :- QualifierTables(tables[..|tables| - 1], namePatterns);
      var t := tables[|tables| - 1];
      var name := GetTableName(t, true);
      if name.None? then Err(TypeError)
      else if Contains(name.value, "Qualifiers") then
        var d :- FormatLeagueTable(t, true, namePatterns);
        Ok(prev + [d])
      else Ok(prev)
  }

  /** `scrape_international_cups_table`: None when no table is a qualifiers table,
      otherwise the merge of all of them with the gender of each name's first row. */
  function InternationalCompetitions(tables: seq<Table>, namePatterns: seq<Matcher>): (r: Result<Value>)
    ensures r.Ok? ==> r.value == Null || r.value.Map?
    ensures r.Ok? && r.value.Map? ==> exists m :: WellFormed(m) && r.value.m == MergedDict(m)
  {
    var ds :- QualifierTables(tables, namePatterns);
    if |ds| == 0 then Ok(Null)
    else
      var m :- MergeTables(NoneMerged, ds, None);
      Ok(Map(MergedDict(m)))
  }

  /** The first table whose caption the finder matches, formatted; None when there is
      none. */
  function FormattedFirst(tables: seq<Table>, finder: Finder, getNames: bool, namePatterns: seq<Matcher>): (r: Result<Value>)
    ensures r.Ok? ==> r.value == Null || r.value.Map?
  {
    var found :- TablesFromCaption(tables, [finder]);
    if found.None? then Ok(Null)
    else
      var d :- FormatLeagueTable(found.value[0], getNames, namePatterns);
      Ok(Map(d))
  }

  /** The names of a men's (or women's) national team table, or none when there is no
      such table. */
  function TableNames(v: Value): seq<Value> {
    if Truthy(v) && Lookup(v.m, "competition_name").Ok? && Iterate(Lookup(v.m, "competition_name").value).Ok?
    then Iterate(Lookup(v.m, "competition_name").value).value
    else []
  }

  /** The merge of the men's table then the women's table, each when present. */
  function NationalMerge(mn: Value, wmn: Value): (r: Result<Merged>)
    ensures r.Ok? ==> WellFormed(r.value)
  {
    var m1 :- if Truthy(mn) then MergeTable(NoneMerged, mn.m, Some(Str("M"))) else Ok(NoneMerged);
    if Truthy(wmn) then MergeTable(m1, wmn.m, Some(Str("F"))) else Ok(m1)
  }

  /** `scrape_national_team_competitions` after the two tables are formatted: None
      when neither table gives a name. */
  function NationalTeamCompetitions(mn: Value, wmn: Value): (r: Result<Value>)
    ensures NationalMerge(mn, wmn).Err? ==> r == Err(NationalMerge(mn, wmn).error)
    ensures NationalMerge(mn, wmn).Ok? ==>
      r == Ok(if |NationalMerge(mn, wmn).value.names| == 0 then Null else Map(MergedDict(NationalMerge(mn, wmn).value)))
  {
    var m :- NationalMerge(mn, wmn);
    if |m.names| == 0 then Ok(Null) else Ok(Map(MergedDict(m)))
  }

  /** Merging one table with a fixed gender: the names merged are those seen before
      and those of the table, and every name added is new and carries that gender. */
  lemma MergeTableTagged(acc: Merged, v: Value, g: Value)
    requires WellFormed(acc) && Truthy(v) && MergeTable(acc, v.m, Some(g)).Ok?
    ensures var r := MergeTable(acc, v.m, Some(g)).value;
      && (forall x :: x in r.names <==> x in acc.names || x in TableNames(v))
      && (forall k :: |acc.names| <= k < |r.names| ==> r.genders[k] == g && r.names[k] !in acc.names)
  {
    var names := Iterate(Lookup(v.m, "competition_name").value).value;
    MergeRowsShape(acc, v.m, names, Some(g), |names|);
    assert names[..|names|] == names;
  }

  /** Every competition is tagged 'M' exactly when the men's table lists it, 'F'
      otherwise; each is listed once. */
  lemma NationalMergeGenders(mn: Value, wmn: Value)
    requires NationalMerge(mn, wmn).Ok?
    ensures var m := NationalMerge(mn, wmn).value;
      && Distinct(m.names)
      && forall k :: 0 <= k < |m.names| ==>
           && (m.genders[k] == Str("M") || m.genders[k] == Str("F"))
           && (m.genders[k] == Str("M") <==> m.names[k] in TableNames(mn))
  {
    var m := NationalMerge(mn, wmn).value;
    var m1 := if Truthy(mn) then MergeTable(NoneMerged, mn.m, Some(Str("M"))).value else NoneMerged;
    if Truthy(mn) {
      MergeTableTagged(NoneMerged, mn, Str("M"));
    }
    assert forall x :: x in m1.names <==> x in TableNames(mn);
    if Truthy(wmn) {
      MergeTableTagged(m1, wmn, Str("F"));
    }
    assert Extends(m, m1);
    forall k | 0 <= k < |m1.names|
      ensures m.genders[k] == Str("M") && m.names[k] in TableNames(mn)
    {
      assert m.genders[k] == m1.genders[k] && m.names[k] == m1.names[k];
    }
  }

  /** The caption patterns of the four categories' tables. */
  datatype Captions = Captions(domesticLeagues: Finder, domesticCups: Finder, mensNational: Finder, womensNational: Finder)

  /** `scrape_leagues_data` after the page's tables are fetched: the four categories,
      each None or its columns. */
  function ScrapeLeaguesData(tables: seq<Table>, captions: Captions, namePatterns: seq<Matcher>): (r: Result<Dict<Value>>)
    ensures r.Ok? ==> Keys(r.value) == Categories
  {
    var dl :- FormattedFirst(tables, captions.domesticLeagues, false, namePatterns);
    var dc :- FormattedFirst(tables, captions.domesticCups, false, namePatterns);
    var ic :- InternationalCompetitions(tables, namePatterns);
    var mn :- FormattedFirst(tables, captions.mensNational, true, namePatterns);
    var wmn :- FormattedFirst(tables, captions.womensNational, true, namePatterns);
    var nt :- NationalTeamCompetitions(mn, wmn);
    Ok(CategoriesDict(dl, dc, ic, nt))
  }

  function CategoriesDict(dl: Value, dc: Value, ic: Value, nt: Value): (r: Dict<Value>)
    ensures Keys(r) == Categories
  {
    [(Categories[0], dl), (Categories[1], dc), (Categories[2], ic), (Categories[3], nt)]
  }

  // ---------------------------------------------------------------- clean_leagues_data

  /** The keys of the entries whose value is not None, in order. */
  function NonNullKeys(d: seq<(string, Value)>): (r: seq<string>)
    ensures |r| <= |d|
    ensures |r| == 0 <==> forall j :: 0 <= j < |d| ==> d[j].1 == Null
  {
    if |d| == 0 then []
    else
      var prev := NonNullKeys(d[..|d| - 1]);
      assert forall j :: 0 <= j < |d| - 1 ==> d[..|d| - 1][j] == d[j];
      if d[|d| - 1].1 == Null then prev else prev + [d[|d| - 1].0]
  }

  /** One category of `clean_leagues_data`: its ids made integers and its columns
      projected onto the leagues order. A category that is not a dict raises
      AttributeError. */
  function CleanCategory(v: Value): (r: Result<Value>)
    ensures !v.Map? ==> r == Err(AttributeError)
    ensures r.Ok? ==> r.value.Map? && IsSubseq(Keys(r.value.m), LeaguesOrder)
  {
    var sub :- AsDict(v);
    var converted :- ConvertedDtypes(sub, IntKeys, []);
    ProjectKeysSubseq(converted, LeaguesOrder);
    Ok(Map(Project(converted, LeaguesOrder)))
  }

  /** The loop of `clean_leagues_data` over the first `n` categories: None categories
      are left out, the others cleaned. */
  function CleanedCategories(d: Dict<Value>, n: nat): (r: Result<Dict<Value>>)
    requires n <= |d|
    ensures r.Ok? ==> Keys(r.value) == NonNullKeys(d[..n])
    ensures r.Ok? ==> forall j :: 0 <= j < |r.value| ==> r.value[j].1 != Null
  {
    if n == 0 then Ok([])
    else
      var m: nat := n - 1;
      var prev :- CleanedCategories(d, m);
      AddCleanedCategory(d, m, prev)
  }

  /** One category of the loop: skipped when None, cleaned and added otherwise. */
  function AddCleanedCategory(d: Dict<Value>, m: nat, prev: Dict<Value>): (r: Result<Dict<Value>>)
    requires m < |d| && Keys(prev) == NonNullKeys(d[..m])
    requires forall j :: 0 <= j < |prev| ==> prev[j].1 != Null
    ensures r.Ok? ==> Keys(r.value) == NonNullKeys(d[..m + 1])
    ensures r.Ok? ==> forall j :: 0 <= j < |r.value| ==> r.value[j].1 != Null
  {
    NonNullKeysSnoc(d, m);
    if d[m].1 == Null then Ok(prev)
    else
      var cleaned :- CleanCategory(d[m].1);
      NonNullKeysFresh(d, m);
      Ok(AddNew(prev, d[m].0, cleaned))
  }

  lemma NonNullKeysSnoc(d: seq<(string, Value)>, m: nat)
    requires m < |d|
    ensures NonNullKeys(d[..m + 1]) ==
      if d[m].1 == Null then NonNullKeys(d[..m]) else NonNullKeys(d[..m]) + [d[m].0]
  {
    assert d[..m + 1][..m] == d[..m];
  }

  /** A key of the dict is not among the non-None keys of the entries before it. */
  lemma NonNullKeysFresh(d: Dict<Value>, m: nat)
    requires m < |d|
    ensures d[m].0 !in NonNullKeys(d[..m])
  {
    NonNullKeysIn(d[..m]);
    forall j | 0 <= j < m ensures Keys(d[..m])[j] != d[m].0 {
      assert Keys(d)[j] == d[j].0 && Keys(d)[m] == d[m].0;
    }
  }

  /** Every key `NonNullKeys` lists is a key of the entries. */
  lemma {:induction false} NonNullKeysIn(d: seq<(string, Value)>)
    ensures forall k :: k in NonNullKeys(d) ==> k in Keys(d)
  {
    if |d| > 0 {
      var d' := d[..|d| - 1];
      NonNullKeysIn(d');
      assert forall j :: 0 <= j < |d'| ==> Keys(d')[j] == Keys(d)[j];
      assert Keys(d)[|d| - 1] == d[|d| - 1].0;
    }
  }

  // ---------------------------------------------------------------- orientation

  /** `v[k]` for a string key: KeyError for a dict without it, TypeError for anything
      that is not a dict. */
  function Subscript(v: Value, k: string): (r: Result<Value>)
    ensures r.Ok? ==> v.Map? && Get(v.m, k) == Some(r.value)
  {
    if v.Map? then Lookup(v.m, k) else Err(TypeError)
  }

  /** `x[i]` for the value under each key of a category. */
  function AtRow(i: nat): (string, Value) -> Result<Value> {
    (k: string, v: Value) => IndexAt(v, i)
  }

  /** The first `n` league records of a category. */
  function LeagueRecords(sub: Dict<Value>, n: nat): (r: Result<seq<Value>>)
    ensures r.Ok? ==> |r.value| == n
  {
    if n == 0 then Ok([])
    else
      var m: nat := n - 1;
      var prev :- LeagueRecords(sub, m);
      var record :- MapValues(sub, AtRow(m));
      Ok(prev + [Map(record)])
  }

  /** Record `i` maps each key of the category, in order, to the `i`-th item of that
      column. */
  predicate RecordOfRow(sub: Dict<Value>, i: nat, record: Value) {
    && record.Map? && Keys(record.m) == Keys(sub)
    && forall a :: 0 <= a < |sub| ==> IndexAt(sub[a].1, i) == Ok(record.m[a].1)
  }

  lemma {:induction false} LeagueRecordsRows(sub: Dict<Value>, n: nat)
    requires LeagueRecords(sub, n).Ok?
    ensures forall i :: 0 <= i < n ==> RecordOfRow(sub, i, LeagueRecords(sub, n).value[i])
  {
    if n > 0 {
      var m: nat := n - 1;
      LeagueRecordsRows(sub, m);
      var prev := LeagueRecords(sub, m).value;
      var record := MapValues(sub, AtRow(m)).value;
      assert LeagueRecords(sub, n).value == prev + [Map(record)];
      assert RecordOfRow(sub, m, Map(record)) by {
        forall a | 0 <= a < |sub| ensures IndexAt(sub[a].1, m) == Ok(record[a].1) {
          assert AtRow(m)(sub[a].0, sub[a].1) == IndexAt(sub[a].1, m);
        }
      }
    }
  }

  /** One entry of `change_league_dict_orientation`: the category's name, then its
      records. */
  function LeagueType(key: string, v: Value): (r: Result<Value>)
    ensures r.Ok? ==> r.value.Map? && |r.value.m| == 2
    ensures r.Ok? ==> r.value.m[0] == ("league_type", Str(key)) && r.value.m[1].0 == "leagues"
  {
    var ids :- Subscript(v, "league_id");
    var n :- Len(ids);
    var records :- LeagueRecords(v.m, n);
    Ok(Map(Pair("league_type", Str(key), "leagues", List(records))))
  }

  /** The entry's 'leagues' list holds one record per element of the category's
      'league_id' column, record `i` built from row `i` of every column; a value that
      is not a dict, or has no 'league_id', makes the entry fail. */
  lemma LeagueTypeRecords(key: string, v: Value)
    ensures !v.Map? || Get(v.m, "league_id").None? ==> LeagueType(key, v).Err?
    ensures LeagueType(key, v).Ok? ==>
      && v.Map? && Get(v.m, "league_id").Some? && Len(Get(v.m, "league_id").value).Ok?
      && var records := LeagueType(key, v).value.m[1].1;
      && records.List?
      && |records.items| == Len(Get(v.m, "league_id").value).value
      && forall i :: 0 <= i < |records.items| ==> RecordOfRow(v.m, i, records.items[i])
  {
    if LeagueType(key, v).Ok? {
      var n := Len(Subscript(v, "league_id").value).value;
      LeagueRecordsRows(v.m, n);
    }
  }

  /** The entries of the first `n` categories that are not None, in order. */
  function LeagueTypes(ld: seq<(string, Value)>, n: nat): Result<seq<Value>>
    requires n <= |ld|
  {
    if n == 0 then Ok([])
    else
      var m: nat := n - 1;
      var prev :- LeagueTypes(ld, m);
      AddLeagueType(prev, ld[m])
  }

  /** One category of the loop: skipped when None, its entry appended otherwise. */
  function AddLeagueType(prev: seq<Value>, category: (string, Value)): Result<seq<Value>> {
    if category.1 == Null then Ok(prev)
    else
      var entry :- LeagueType(category.0, category.1);
      Ok(prev + [entry])
  }

  lemma LeagueTypesSnoc(ld: seq<(string, Value)>, j: nat)
    requires j < |ld|
    ensures LeagueTypes(ld, j + 1) ==
      if LeagueTypes(ld, j).Err? then LeagueTypes(ld, j) else AddLeagueType(LeagueTypes(ld, j).value, ld[j])
  {
    assert j + 1 - 1 == j;
  }

  /** There is one entry per category that is not None, and entry `j` is named after
      the `j`-th of them. */
  lemma {:induction false} LeagueTypesNamed(ld: seq<(string, Value)>, n: nat)
    requires n <= |ld| && LeagueTypes(ld, n).Ok?
    ensures var r := LeagueTypes(ld, n).value;
      && |r| == |NonNullKeys(ld[..n])|
      && forall j :: 0 <= j < |r| ==>
        r[j].Map? && |r[j].m| == 2 && r[j].m[0] == ("league_type", Str(NonNullKeys(ld[..n])[j]))
  {
    if n > 0 {
      var m: nat := n - 1;
      LeagueTypesNamed(ld, m);
      NonNullKeysSnoc(ld, m);
      var prev := LeagueTypes(ld, m).value;
      if ld[m].1 != Null {
        var r := LeagueTypes(ld, n).value;
        var entry := LeagueType(ld[m].0, ld[m].1).value;
        assert r == prev + [entry];
        assert forall j :: 0 <= j < |prev| ==> r[j] == prev[j];
      }
    }
  }

  /** `change_league_dict_orientation`: `{'data': entries}` with one entry per category
      that is not None. */
  function ChangeLeagueDictOrientation(ld: Dict<Value>): (r: Result<Dict<Value>>)
    ensures r.Ok? ==> LeagueTypes(ld, |ld|).Ok? && r.value == [("data", List(LeagueTypes(ld, |ld|).value))]
  {
    var types :- LeagueTypes(ld, |ld|);
    Ok(DataDict(types))
  }

  /** `clean_leagues_data` */
  function CleanLeaguesData(d: Dict<Value>): Result<Dict<Value>> {
    var clean :- CleanedCategories(d, |d|);
    ChangeLeagueDictOrientation(clean)
  }

  /** The cleaned output has one entry per category that is not None, named after it,
      in the input's order. */
  lemma CleanLeaguesDataCategories(d: Dict<Value>)
    requires CleanLeaguesData(d).Ok?
    ensures var data := CleanLeaguesData(d).value[0].1.items;
      && |data| == |NonNullKeys(d)|
      && forall j :: 0 <= j < |data| ==>
           data[j].Map? && |data[j].m| == 2 && data[j].m[0] == ("league_type", Str(NonNullKeys(d)[j]))
  {
    var clean := CleanedCategories(d, |d|).value;
    assert d[..|d|] == d;
    assert clean[..|clean|] == clean;
    NonNullKeysOfNonNull(clean);
    LeagueTypesNamed(clean, |clean|);
  }

  /** A dict without None values keeps all its keys. */
  lemma {:induction false} NonNullKeysOfNonNull(d: seq<(string, Value)>)
    requires forall j :: 0 <= j < |d| ==> d[j].1 != Null
    ensures NonNullKeys(d) == Keys(d)
  {
    if |d| > 0 {
      NonNullKeysOfNonNull(d[..|d| - 1]);
    }
  }

  // ---------------------------------------------------------------- the all-None check

  /** `scrape_clean_data` after the scrape: the check for a country without any
      competition looks at the values of the cleaned dict, whose only value is the
      'data' list. */
  function ScrapeCleanData(raw: Dict<Value>): Result<Dict<Value>> {
    var clean :- CleanLeaguesData(raw);
    if forall j :: 0 <= j < |clean| ==> clean[j].1 == Null then Err(ValueError) else Ok(clean)
  }

  /** The check never fires: whatever the categories, a clean that succeeds is
      returned as it is. */
  lemma ScrapeCleanDataNeverRejects(raw: Dict<Value>)
    requires CleanLeaguesData(raw).Ok?
    ensures ScrapeCleanData(raw) == CleanLeaguesData(raw)
  {
    CleanLeaguesDataHasData(raw);
    var clean := CleanLeaguesData(raw).value;
    assert !(forall j :: 0 <= j < |clean| ==> clean[j].1 == Null);
  }

  /** A successful clean is one 'data' entry holding a list. */
  lemma CleanLeaguesDataHasData(raw: Dict<Value>)
    requires CleanLeaguesData(raw).Ok?
    ensures |CleanLeaguesData(raw).value| == 1 && CleanLeaguesData(raw).value[0].1.List?
  {
    var cats := CleanedCategories(raw, |raw|).value;
    assert CleanLeaguesData(raw) == ChangeLeagueDictOrientation(cats);
  }

  /** A country with no competition at all gets `{'data': []}` instead of the
      ValueError the check is there to raise. */
  lemma ScrapeCleanDataOfNoLeagues()
    ensures ScrapeCleanData(CategoriesDict(Null, Null, Null, Null)) == Ok([("data", List([]))])
  {
    var raw := CategoriesDict(Null, Null, Null, Null);
    assert forall j :: 0 <= j < |raw| ==> raw[j].1 == Null;
    CleanedCategoriesOfNone(raw, |raw|);
    assert CleanLeaguesData(raw) == ChangeLeagueDictOrientation([]);
    assert LeagueTypes([], 0) == Ok([]);
    var clean := [("data", List([]))];
    assert CleanLeaguesData(raw) == Ok(clean);
    assert clean[0].1 != Null;
  }

  lemma {:induction false} CleanedCategoriesOfNone(d: Dict<Value>, n: nat)
    requires n <= |d| && forall j :: 0 <= j < |d| ==> d[j].1 == Null
    ensures CleanedCategories(d, n) == Ok([])
  {
    if n > 0 {
      CleanedCategoriesOfNone(d, n - 1);
    }
  }

  /** The check as evidently intended: ValueError when every category is None. */
  function ScrapeCleanDataFixed(raw: Dict<Value>): Result<Dict<Value>> {
    if forall j :: 0 <= j < |raw| ==> raw[j].1 == Null then Err(ValueError) else CleanLeaguesData(raw)
  }

  /** The corrected check rejects exactly the pages whose clean has no entry. */
  lemma ScrapeCleanDataFixedRejectsEmpty(raw: Dict<Value>)
    requires CleanLeaguesData(raw).Ok?
    ensures ScrapeCleanDataFixed(raw).Err? <==> |CleanLeaguesData(raw).value[0].1.items| == 0
    ensures ScrapeCleanDataFixed(raw).Ok? ==> ScrapeCleanDataFixed(raw) == CleanLeaguesData(raw)
  {
    CleanLeaguesDataCategories(raw);
  }

  // ---------------------------------------------------------------- the loops

  /** The inner merge loop over one table's names. */
  method MergeRowsLoop(acc: Merged, d: Dict<Value>, names: seq<Value>, gender: Option<Value>) returns (r: Result<Merged>)
    requires WellFormed(acc)
    ensures r == MergeRows(acc, d, names, gender, |names|)
  {
    var cur := acc;
    for i := 0 to |names|
      invariant MergeRows(acc, d, names, gender, i) == Ok(cur)
    {
      MergeRowsSnoc(acc, d, names, gender, i);
      var next := MergeRowSteps(cur, d, names, gender, i);
      if next.Err? {
        MergeRowsFails(acc, d, names, gender, i + 1, |names|);
        return Err(next.error);
      }
      cur := next.value;
    }
    return Ok(cur);
  }

  /** One row: a name already merged is skipped, a new one appended with the id and
      gender of its row. */
  method MergeRowSteps(cur: Merged, d: Dict<Value>, names: seq<Value>, gender: Option<Value>, i: nat) returns (r: Result<Merged>)
    requires WellFormed(cur) && i < |names|
    ensures r == MergeRow(cur, d, names, gender, i)
  {
    var name := names[i];
    if name in cur.names {
      return Ok(cur);
    }
    var id := IdAt(d, i);
    if id.Err? {
      return Err(id.error);
    }
    var g := GenderAt(d, gender, i);
    if g.Err? {
      return Err(g.error);
    }
    return Ok(Merged(cur.names + [name], cur.ids + [id.value], cur.genders + [g.value]));
  }

  lemma MergeRowsFails(acc: Merged, d: Dict<Value>, names: seq<Value>, gender: Option<Value>, m: nat, n: nat)
    requires WellFormed(acc) && m <= n <= |names| && MergeRows(acc, d, names, gender, m).Err?
    ensures MergeRows(acc, d, names, gender, n) == MergeRows(acc, d, names, gender, m)
  {
    var i := m;
    while i < n
      invariant m <= i <= n && MergeRows(acc, d, names, gender, i) == MergeRows(acc, d, names, gender, m)
    {
      MergeRowsSnoc(acc, d, names, gender, i);
      i := i + 1;
    }
  }

  /** One table of the merge, as the loop body reads it. */
  method MergeTableSteps(acc: Merged, d: Dict<Value>, gender: Option<Value>) returns (r: Result<Merged>)
    requires WellFormed(acc)
    ensures r == MergeTable(acc, d, gender)
  {
    var col :- Lookup(d, "competition_name");
    var names :- Iterate(col);
    r := MergeRowsLoop(acc, d, names, gender);
  }

  /** The outer merge loop over the qualifiers tables. */
  method MergeTablesLoop(ds: seq<Dict<Value>>) returns (r: Result<Merged>)
    ensures r == MergeTables(NoneMerged, ds, None)
  {
    var cur := NoneMerged;
    for i := 0 to |ds|
      invariant MergeTables(NoneMerged, ds[..i], None) == Ok(cur)
    {
      assert ds[..i + 1][..i] == ds[..i];
      var next := MergeTableSteps(cur, ds[i], None);
      if next.Err? {
        MergeTablesFails(ds, i + 1);
        return next;
      }
      cur := next.value;
    }
    assert ds[..|ds|] == ds;
    return Ok(cur);
  }

  lemma {:induction false} MergeTablesFails(ds: seq<Dict<Value>>, i: nat)
    requires i <= |ds| && MergeTables(NoneMerged, ds[..i], None).Err?
    ensures MergeTables(NoneMerged, ds, None) == MergeTables(NoneMerged, ds[..i], None)
    decreases |ds| - i
  {
    if i == |ds| {
      assert ds[..i] == ds;
    } else {
      assert ds[..i + 1][..i] == ds[..i];
      MergeTablesFails(ds, i + 1);
    }
  }

  /** The loop collecting the formatted qualifiers tables. */
  method QualifierTablesLoop(tables: seq<Table>, namePatterns: seq<Matcher>) returns (r: Result<seq<Dict<Value>>>)
    ensures r == QualifierTables(tables, namePatterns)
  {
    var found: seq<Dict<Value>> := [];
    for i := 0 to |tables|
      invariant QualifierTables(tables[..i], namePatterns) == Ok(found)
    {
      assert tables[..i + 1][..i] == tables[..i];
      var name := GetTableName(tables[i], true);
      if name.None? {
        QualifierTablesFails(tables, namePatterns, i + 1);
        return Err(TypeError);
      }
      if Contains(name.value, "Qualifiers") {
        var d := FormatLeagueTableSteps(tables[i], true, namePatterns);
        if d.Err? {
          QualifierTablesFails(tables, namePatterns, i + 1);
          return Err(d.error);
        }
        found := found + [d.value];
      }
    }
    assert tables[..|tables|] == tables;
    return Ok(found);
  }

  lemma {:induction false} QualifierTablesFails(tables: seq<Table>, namePatterns: seq<Matcher>, i: nat)
    requires i <= |tables| && QualifierTables(tables[..i], namePatterns).Err?
    ensures QualifierTables(tables, namePatterns) == QualifierTables(tables[..i], namePatterns)
    decreases |tables| - i
  {
    if i == |tables| {
      assert tables[..i] == tables;
    } else {
      assert tables[..i + 1][..i] == tables[..i];
      QualifierTablesFails(tables, namePatterns, i + 1);
    }
  }

  /** `scrape_international_cups_table` step by step. */
  method InternationalCompetitionsSteps(tables: seq<Table>, namePatterns: seq<Matcher>) returns (r: Result<Value>)
    ensures r == InternationalCompetitions(tables, namePatterns)
  {
    var ds :- QualifierTablesLoop(tables, namePatterns);
    if |ds| == 0 {
      return Ok(Null);
    }
    var m :- MergeTablesLoop(ds);
    return Ok(Map(MergedDict(m)));
  }

  /** `scrape_national_team_competitions` step by step. */
  method NationalTeamCompetitionsSteps(mn: Value, wmn: Value) returns (r: Result<Value>)
    ensures r == NationalTeamCompetitions(mn, wmn)
  {
    var cur := NoneMerged;
    if Truthy(mn) {
      cur :- MergeTableSteps(cur, mn.m, Some(Str("M")));
    }
    if Truthy(wmn) {
      cur :- MergeTableSteps(cur, wmn.m, Some(Str("F")));
    }
    if |cur.names| == 0 {
      return Ok(Null);
    }
    return Ok(Map(MergedDict(cur)));
  }

  /** The loop of `clean_leagues_data` over the categories. */
  method CleanedCategoriesLoop(d: Dict<Value>) returns (r: Result<Dict<Value>>)
    ensures r == CleanedCategories(d, |d|)
  {
    var clean: Dict<Value> := [];
    for i := 0 to |d|
      invariant CleanedCategories(d, i) == Ok(clean)
    {
      CleanedCategoriesSnoc(d, i);
      var next := AddCleanedCategorySteps(d, i, clean);
      if next.Err? {
        CleanedCategoriesFails(d, i + 1, |d|);
        return Err(next.error);
      }
      clean := next.value;
    }
    return Ok(clean);
  }

  /** One category: a None category is skipped, any other converted, projected and
      stored under its name. */
  method AddCleanedCategorySteps(d: Dict<Value>, i: nat, clean: Dict<Value>) returns (r: Result<Dict<Value>>)
    requires i < |d| && Keys(clean) == NonNullKeys(d[..i])
    requires forall j :: 0 <= j < |clean| ==> clean[j].1 != Null
    ensures r == AddCleanedCategory(d, i, clean)
  {
    if d[i].1 == Null {
      return Ok(clean);
    }
    var sub := d[i].1;
    if !sub.Map? {
      return Err(AttributeError);
    }
    var converted := ConvertDictDtypes(sub.m, IntKeys, []);
    if converted.Err? {
      return Err(converted.error);
    }
    NonNullKeysFresh(d, i);
    return Ok(SetItem(clean, d[i].0, Map(Project(converted.value, LeaguesOrder))));
  }

  lemma CleanedCategoriesSnoc(d: Dict<Value>, i: nat)
    requires i < |d|
    ensures CleanedCategories(d, i).Ok? ==> CleanedCategories(d, i + 1) == AddCleanedCategory(d, i, CleanedCategories(d, i).value)
    ensures CleanedCategories(d, i).Err? ==> CleanedCategories(d, i + 1) == CleanedCategories(d, i)
  {
    assert i + 1 - 1 == i;
  }

  lemma CleanedCategoriesFails(d: Dict<Value>, m: nat, n: nat)
    requires m <= n <= |d| && CleanedCategories(d, m).Err?
    ensures CleanedCategories(d, n) == CleanedCategories(d, m)
  {
    var i := m;
    while i < n
      invariant m <= i <= n && CleanedCategories(d, i) == CleanedCategories(d, m)
    {
      CleanedCategoriesSnoc(d, i);
      i := i + 1;
    }
  }


  /** The innermost loop: record `i` of a category, key by key. */
  method RecordAt(sub: Dict<Value>, i: nat) returns (r: Result<Dict<Value>>)
    ensures r == MapValues(sub, AtRow(i))
  {
    var record: Dict<Value> := [];
    for a := 0 to |sub|
      invariant MapValuesUpTo(sub, AtRow(i), a) == Ok(record)
    {
      var x := AtRow(i)(sub[a].0, sub[a].1);
      MapValuesLoopStep(sub, AtRow(i), a, record);
      if x.Err? {
        return Err(x.error);
      }
      record := AddNew(record, sub[a].0, x.value);
    }
    MapValuesLoopDone(sub, AtRow(i), record);
    return Ok(record);
  }

  /** The loop over the rows of one category. */
  method LeagueRecordsLoop(sub: Dict<Value>, n: nat) returns (r: Result<seq<Value>>)
    ensures r == LeagueRecords(sub, n)
  {
    var records: seq<Value> := [];
    for i := 0 to n
      invariant LeagueRecords(sub, i) == Ok(records)
    {
      LeagueRecordsSnoc(sub, i);
      var record := RecordAt(sub, i);
      if record.Err? {
        LeagueRecordsFails(sub, i + 1, n);
        return Err(record.error);
      }
      records := records + [Map(record.value)];
    }
    return Ok(records);
  }

  lemma LeagueRecordsSnoc(sub: Dict<Value>, i: nat)
    ensures LeagueRecords(sub, i + 1) ==
      if LeagueRecords(sub, i).Err? then LeagueRecords(sub, i)
      else match MapValues(sub, AtRow(i))
        case Err(e) => Err(e)
        case Ok(record) => Ok(LeagueRecords(sub, i).value + [Map(record)])
  {
    assert i + 1 - 1 == i;
  }

  lemma LeagueRecordsFails(sub: Dict<Value>, m: nat, n: nat)
    requires m <= n && LeagueRecords(sub, m).Err?
    ensures LeagueRecords(sub, n) == LeagueRecords(sub, m)
  {
    var i := m;
    while i < n
      invariant m <= i <= n && LeagueRecords(sub, i) == LeagueRecords(sub, m)
    {
      LeagueRecordsSnoc(sub, i);
      i := i + 1;
    }
  }

  /** `change_league_dict_orientation`'s loops. */
  method ChangeLeagueDictOrientationLoop(ld: Dict<Value>) returns (r: Result<Dict<Value>>)
    ensures r == ChangeLeagueDictOrientation(ld)
  {
    var types := LeagueTypesLoop(ld);
    if types.Err? {
      return Err(types.error);
    }
    return Ok(DataDict(types.value));
  }

  /** The loop over the categories, one entry per category that is not None. */
  method LeagueTypesLoop(ld: Dict<Value>) returns (r: Result<seq<Value>>)
    ensures r == LeagueTypes(ld, |ld|)
  {
    var data: seq<Value> := [];
    for j := 0 to |ld|
      invariant LeagueTypes(ld, j) == Ok(data)
    {
      LeagueTypesSnoc(ld, j);
      var next := AddLeagueTypeSteps(data, ld[j]);
      if next.Err? {
        LeagueTypesFails(ld, j + 1, |ld|);
        return Err(next.error);
      }
      data := next.value;
    }
    return Ok(data);
  }

  /** One category: skipped when None, its entry appended otherwise. */
  method AddLeagueTypeSteps(prev: seq<Value>, category: (string, Value)) returns (r: Result<seq<Value>>)
    ensures r == AddLeagueType(prev, category)
  {
    if category.1 == Null {
      return Ok(prev);
    }
    var entry := LeagueTypeSteps(category.0, category.1);
    if entry.Err? {
      return Err(entry.error);
    }
    return Ok(prev + [entry.value]);
  }

  method LeagueTypeSteps(key: string, v: Value) returns (r: Result<Value>)
    ensures r == LeagueType(key, v)
  {
    var ids := Subscript(v, "league_id");
    if ids.Err? {
      return Err(ids.error);
    }
    var n := Len(ids.value);
    if n.Err? {
      return Err(n.error);
    }
    var records := LeagueRecordsLoop(v.m, n.value);
    if records.Err? {
      return Err(records.error);
    }
    return Ok(Map(Pair("league_type", Str(key), "leagues", List(records.value))));
  }

  lemma {:induction false} LeagueTypesFails(ld: seq<(string, Value)>, m: nat, n: nat)
    requires m <= n <= |ld| && LeagueTypes(ld, m).Err?
    ensures LeagueTypes(ld, n) == LeagueTypes(ld, m)
    decreases n - m
  {
    if m < n {
      var m1: nat := m + 1;
      LeagueTypesFailsStep(ld, m);
      LeagueTypesFails(ld, m1, n);
    }
  }

  lemma LeagueTypesFailsStep(ld: seq<(string, Value)>, m: nat)
    requires m < |ld| && LeagueTypes(ld, m).Err?
    ensures LeagueTypes(ld, m + 1) == LeagueTypes(ld, m)
  {
  }

  /** `clean_leagues_data` step by step. */
  method CleanLeaguesDataSteps(d: Dict<Value>) returns (r: Result<Dict<Value>>)
    ensures r == CleanLeaguesData(d)
  {
    var clean :- CleanedCategoriesLoop(d);
    r := ChangeLeagueDictOrientationLoop(clean);
  }
}
