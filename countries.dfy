/** The countries scraper: the table of every country football reference tracks, with
    the flag column dropped, the club and player counts made integers, the national
    team label turned into team codes and one record per country code. */
module Countries {
  import opened Wrappers
  import opened Text
  import opened Lists
  import opened Dicts
  import opened Values
  import opened FbrefScraper

  /** `reorder_countries_dict_keys`' order: 'competitions' is not in it. */
  const CountriesOrder: seq<string> :=
    ["country", "country_code", "governing_body", "#_clubs", "#_players", "national_teams"]

  /** `convert_countries_dict_dtypes`' integer columns (it has no float columns). */
  const IntKeys: seq<string> := ["#_clubs", "#_players"]

  // ---------------------------------------------------------------- national teams

  /** `clean_national_teams`: 'M' for a men's team, 'F' for a women's team, men first;
      None for any other entry (including one that is not text). */
  function NationalTeams(entry: Value): (r: Value)
    ensures r == Null <==> entry != Str("Men/Women") && entry != Str("Men") && entry != Str("Women")
    ensures r.List? ==> (Str("M") in r.items <==> entry == Str("Men/Women") || entry == Str("Men"))
    ensures r.List? ==> (Str("F") in r.items <==> entry == Str("Men/Women") || entry == Str("Women"))
    ensures r.List? ==> Distinct(r.items) && (forall i :: 0 <= i < |r.items| ==> r.items[i] in [Str("M"), Str("F")])
    ensures r.List? && |r.items| == 2 ==> r.items[0] == Str("M")
  {
    if entry == Str("Men/Women") then List([Str("M"), Str("F")])
    else if entry == Str("Men") then List([Str("M")])
    else if entry == Str("Women") then List([Str("F")])
    else Null
  }

  /** The label a list of team codes comes from: the inverse of `NationalTeams`. */
  function NationalTeamsLabel(codes: Value): (r: Value)
    ensures r != Null ==> NationalTeams(r) == codes
  {
    if codes == List([Str("M"), Str("F")]) then Str("Men/Women")
    else if codes == List([Str("M")]) then Str("Men")
    else if codes == List([Str("F")]) then Str("Women")
    else Null
  }

  /** A recognised label is recovered from its codes, so no two labels share codes. */
  lemma NationalTeamsRoundTrip(entry: Value)
    requires NationalTeams(entry) != Null
    ensures NationalTeamsLabel(NationalTeams(entry)) == entry
  {
  }

  /** `clean_national_teams` as a step that cannot fail. */
  function NationalTeamsStep(entry: Value): Result<Value> {
    Ok(NationalTeams(entry))
  }

  // ---------------------------------------------------------------- competitions

  /** `x.split(',')` for one competitions cell: the comma-free pieces that joined with
      commas give the cell back; a cell that is not text raises AttributeError. */
  function CompetitionParts(x: Value): (r: Result<seq<string>>)
    ensures r.Ok? <==> x.Str?
    ensures r.Err? ==> r.error == AttributeError
    ensures r.Ok? ==> |r.value| >= 1 && Join(r.value, ",") == x.s
    ensures r.Ok? ==> forall k :: 0 <= k < |r.value| ==> ',' !in r.value[k]
  {
    var s :- AsStr(x);
    JoinSplit(s, ',');
    SplitFieldsFree(s, ',');
    Ok(Split(s, ','))
  }

  function SplitCompetition(x: Value): Result<Value> {
    var parts :- CompetitionParts(x);
    Ok(List(Strs(parts)))
  }

  // ---------------------------------------------------------------- clean_countries_data

  /** The column steps of `clean_countries_data`, up to the projection onto the
      countries order. */
  function CountryColumns(d: Dict<Value>): (r: Result<Dict<Value>>)
    ensures !Has(d, "flag") ==> r == Err(KeyError)
    ensures r.Ok? ==> Has(d, "flag") && Has(d, "national_teams") && Has(d, "competitions")
    ensures r.Ok? ==> IsSubseq(Keys(r.value), CountriesOrder)
  {
    var d2 :- Converted(d);
    var d3 :- WithTeams(d2);
    var d4 :- WithCompetitions(d3);
    HasThroughSteps(d, Remove(d, "flag"), d2);
    ProjectKeysSubseq(d4, CountriesOrder);
    Ok(Project(d4, CountriesOrder))
  }

  /** The flag popped (KeyError when missing) and the counts converted. */
  function Converted(d: Dict<Value>): (r: Result<Dict<Value>>)
    ensures !Has(d, "flag") ==> r == Err(KeyError)
    ensures Has(d, "flag") ==> r == ConvertedDtypes(Remove(d, "flag"), IntKeys, [])
  {
    var popped :- Pop(d, "flag");
    ConvertedDtypes(popped.1, IntKeys, [])
  }

  /** `d['national_teams'] = [clean_national_teams(x) for x in d['national_teams']]` */
  function WithTeams(d: Dict<Value>): (r: Result<Dict<Value>>)
    ensures r.Ok? <==> Has(d, "national_teams") && MapOver(Get(d, "national_teams").value, NationalTeamsStep).Ok?
    ensures r.Ok? ==> r.value == SetItem(d, "national_teams", MapOver(Get(d, "national_teams").value, NationalTeamsStep).value)
  {
    var teams :- Lookup(d, "national_teams");
    var teams' :- MapOver(teams, NationalTeamsStep);
    Ok(SetItem(d, "national_teams", teams'))
  }

  /** `d['competitions'] = [x.split(',') for x in d['competitions']]` */
  function WithCompetitions(d: Dict<Value>): (r: Result<Dict<Value>>)
    ensures !Has(d, "competitions") ==> r == Err(KeyError)
    ensures Has(d, "competitions") && MapOver(Get(d, "competitions").value, SplitCompetition).Err? ==>
      r == Err(MapOver(Get(d, "competitions").value, SplitCompetition).error)
    ensures r.Ok? ==> Has(d, "competitions") && MapOver(Get(d, "competitions").value, SplitCompetition).Ok?
    ensures r.Ok? ==> r.value == SetItem(d, "competitions", MapOver(Get(d, "competitions").value, SplitCompetition).value)
  {
    var comps :- Lookup(d, "competitions");
    var comps' :- MapOver(comps, SplitCompetition);
    Ok(SetItem(d, "competitions", comps'))
  }

  /** Keys that survive popping the flag and converting were in the input. */
  lemma HasThroughSteps(d: Dict<Value>, d1: Dict<Value>, d2: Dict<Value>)
    requires d1 == Remove(d, "flag") && ConvertedDtypes(d1, IntKeys, []) == Ok(d2)
    ensures forall k :: Has(d2, k) ==> Has(d, k)
  {
    forall k | Has(d2, k) ensures Has(d, k) {
      assert k in Keys(d2);
      assert k in Keys(d1);
      GetRemove(d, "flag", k);
    }
  }

  /** `clean_countries_data`: `{'data': records}` with one record per 'country_code'
      entry. */
  function CleanCountriesData(d: Dict<Value>): Result<Dict<Value>> {
    var columns :- CountryColumns(d);
    ChangeDictOrientation(columns, "country_code")
  }

  /** The columns after the flag is popped and the counts converted: the flag is gone
      and every other column holds what `ConvertEntry` makes of it. */
  lemma GetConverted(d: Dict<Value>, k: string)
    requires CountryColumns(d).Ok? && k != "flag"
    ensures var d2 := ConvertedDtypes(Remove(d, "flag"), IntKeys, []);
      && d2.Ok?
      && (Has(d2.value, k) <==> Has(d, k))
      && (Has(d, k) ==> Ok(Get(d2.value, k).value) == ConvertEntry(k, Get(d, k).value, IntKeys, []))
  {
    var d1 := Remove(d, "flag");
    GetRemove(d, "flag", k);
    var d2 := ConvertedDtypes(d1, IntKeys, []).value;
    if Has(d1, k) {
      GetConvertedDtypes(d1, IntKeys, [], k);
    } else {
      assert Keys(d2) == Keys(d1);
      assert !Has(d2, k);
    }
  }

  /** A listed column of the output is the column after the national teams step: the
      competitions step touches only a column the projection drops. */
  lemma GetCountryColumns(d: Dict<Value>, k: string)
    requires CountryColumns(d).Ok? && k in CountriesOrder
    ensures Get(CountryColumns(d).value, k) == Get(WithTeams(Converted(d).value).value, k)
  {
    var d3 := WithTeams(Converted(d).value).value;
    ProjectCompetitions(d3, WithCompetitions(d3).value, k);
  }

  lemma ProjectCompetitions(d3: Dict<Value>, d4: Dict<Value>, k: string)
    requires WithCompetitions(d3) == Ok(d4) && k in CountriesOrder
    ensures Get(Project(d4, CountriesOrder), k) == Get(d3, k)
  {
    OrderOmits();
    GetSetItem(d3, "competitions", Get(d4, "competitions").value, k);
    GetProject(d4, CountriesOrder, k);
  }

  /** 'national_teams' holds the input's column with every entry turned into codes,
      in order. */
  lemma CountryColumnsNationalTeams(d: Dict<Value>)
    requires CountryColumns(d).Ok?
    ensures Iterate(Get(d, "national_teams").value).Ok?
    ensures var entries := Iterate(Get(d, "national_teams").value).value;
      var out := Get(CountryColumns(d).value, "national_teams");
      && out.Some? && out.value.List? && |out.value.items| == |entries|
      && forall i :: 0 <= i < |entries| ==> out.value.items[i] == NationalTeams(entries[i])
  {
    var d2 := Converted(d).value;
    OrderOmits();
    GetCountryColumns(d, "national_teams");
    GetConverted(d, "national_teams");
    var teams := Get(d2, "national_teams").value;
    var teams' := MapOver(teams, NationalTeamsStep).value;
    GetSetItem(d2, "national_teams", teams', "national_teams");
    var entries := Iterate(teams).value;
    var ys := MapResult(entries, NationalTeamsStep).value;
    assert teams' == List(ys);
    forall i | 0 <= i < |entries| ensures ys[i] == NationalTeams(entries[i]) {
      assert NationalTeamsStep(entries[i]) == Ok(ys[i]);
    }
  }

  /** '#_clubs' and '#_players' are converted to integers (None for an empty cell);
      'country', 'country_code' and 'governing_body' are copied. Each is in the
      output exactly when it is in the input. */
  lemma CountryColumnsConverted(d: Dict<Value>, k: string)
    requires CountryColumns(d).Ok? && k in CountriesOrder && k != "national_teams"
    ensures var out := CountryColumns(d).value;
      && (Has(out, k) <==> Has(d, k))
      && (Has(d, k) ==>
            Ok(Get(out, k).value) == if k in IntKeys then ConvertListFromStr(Get(d, k).value, "int") else Ok(Get(d, k).value))
  {
    var d2 := Converted(d).value;
    OrderOmits();
    GetCountryColumns(d, k);
    GetSetItem(d2, "national_teams", Get(WithTeams(d2).value, "national_teams").value, k);
    GetConverted(d, k);
  }

  /** The competitions column is split and checked, then dropped: an output never has
      'competitions' or 'flag'. */
  lemma CountryColumnsDropsCompetitions(d: Dict<Value>)
    requires CountryColumns(d).Ok?
    ensures !Has(CountryColumns(d).value, "competitions") && !Has(CountryColumns(d).value, "flag")
  {
    var out := CountryColumns(d).value;
    SubseqMembers(Keys(out), CountriesOrder);
    OrderOmits();
    assert "competitions" !in Keys(out);
    assert "flag" !in Keys(out);
  }

  lemma OrderOmits()
    ensures "competitions" !in CountriesOrder && "flag" !in CountriesOrder
    ensures "country_code" in CountriesOrder && "national_teams" in CountriesOrder
    ensures "country_code" != "national_teams" && "country_code" !in IntKeys
  {
  }

  /** A competitions cell that is not text raises AttributeError, although the column
      is dropped afterwards. */
  lemma CountryColumnsCompetitionNotText(d: Dict<Value>, i: nat)
    requires Has(d, "flag") && Has(d, "competitions") && Get(d, "competitions").value.List?
    requires Converted(d).Ok? && WithTeams(Converted(d).value).Ok?
    requires var comps := Get(d, "competitions").value.items;
      i < |comps| && !comps[i].Str? && forall j :: 0 <= j < i ==> comps[j].Str?
    ensures CountryColumns(d) == Err(AttributeError)
  {
    var d3 := WithTeams(Converted(d).value).value;
    CompetitionsThroughSteps(d);
    CompetitionNotText(d3, i);
  }

  /** The first two steps leave the competitions column as it was. */
  lemma CompetitionsThroughSteps(d: Dict<Value>)
    requires Has(d, "flag") && Converted(d).Ok? && WithTeams(Converted(d).value).Ok?
    ensures Get(WithTeams(Converted(d).value).value, "competitions") == Get(d, "competitions")
  {
    var d2 := Converted(d).value;
    CompetitionsConverted(d, Remove(d, "flag"), d2);
    CompetitionsWithTeams(d2, WithTeams(d2).value);
  }

  lemma CompetitionsConverted(d: Dict<Value>, d1: Dict<Value>, d2: Dict<Value>)
    requires d1 == Remove(d, "flag") && ConvertedDtypes(d1, IntKeys, []) == Ok(d2)
    ensures Get(d2, "competitions") == Get(d, "competitions")
  {
    GetRemove(d, "flag", "competitions");
    if Has(d1, "competitions") {
      assert "competitions" !in IntKeys;
      GetConvertedDtypes(d1, IntKeys, [], "competitions");
    } else {
      assert Keys(d2) == Keys(d1);
    }
  }

  lemma CompetitionsWithTeams(d2: Dict<Value>, d3: Dict<Value>)
    requires WithTeams(d2) == Ok(d3)
    ensures Get(d3, "competitions") == Get(d2, "competitions")
  {
    GetSetItem(d2, "national_teams", Get(d3, "national_teams").value, "competitions");
  }

  lemma CompetitionNotText(d3: Dict<Value>, i: nat)
    requires Has(d3, "competitions") && Get(d3, "competitions").value.List?
    requires var comps := Get(d3, "competitions").value.items;
      i < |comps| && !comps[i].Str? && forall j :: 0 <= j < i ==> comps[j].Str?
    ensures WithCompetitions(d3) == Err(AttributeError)
  {
    MapResultFirstError(Get(d3, "competitions").value.items, SplitCompetition, i);
  }

  /** `[f(x) for x in xs]` stops at the first element `f` rejects, with its error. */
  lemma {:induction false} MapResultFirstError(xs: seq<Value>, f: Value -> Result<Value>, i: nat)
    requires i < |xs| && f(xs[i]).Err? && forall j :: 0 <= j < i ==> f(xs[j]).Ok?
    ensures MapResult(xs, f) == Err(f(xs[i]).error)
    decreases |xs|
  {
    var init := xs[..|xs| - 1];
    if i < |xs| - 1 {
      MapResultFirstError(init, f, i);
    } else {
      assert forall j :: 0 <= j < |init| ==> f(init[j]).Ok?;
    }
  }

  /** A successful clean holds one record per entry of the input's 'country_code'
      column. */
  lemma CleanCountriesDataRecords(d: Dict<Value>)
    requires CleanCountriesData(d).Ok?
    ensures Has(d, "country_code") && Len(Get(d, "country_code").value).Ok?
    ensures var data := CleanCountriesData(d).value;
      Keys(data) == ["data"] && |data[0].1.items| == Len(Get(d, "country_code").value).value
  {
    OrderOmits();
    CountryColumnsConverted(d, "country_code");
  }

  // ---------------------------------------------------------------- in place

  /** `clean_countries_data` step by step, as the source mutates the dict. */
  method CleanCountriesDataSteps(d: Dict<Value>) returns (r: Result<Dict<Value>>)
    ensures r == CleanCountriesData(d)
  {
    var popped :- Pop(d, "flag");
    var cur := popped.1;
    cur :- ConvertDictDtypes(cur, IntKeys, []);
    var teams :- Lookup(cur, "national_teams");
    var teams' :- MapOver(teams, NationalTeamsStep);
    cur := SetItem(cur, "national_teams", teams');
    var comps :- Lookup(cur, "competitions");
    var comps' :- MapOver(comps, SplitCompetition);
    cur := SetItem(cur, "competitions", comps');
    cur := Project(cur, CountriesOrder);
    r := ChangeDictOrientationLoop(cur, "country_code");
  }
}
