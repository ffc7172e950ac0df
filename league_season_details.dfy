/** The league-season-details scraper: one summary record for a league-season, built
    from its fixtures table (first and last match date, distinct rounds) and the
    advanced-stats registry. */
module LeagueSeasonDetails {
  import opened Wrappers
  import opened Text
  import opened Lists
  import opened Dicts
  import opened Values
  import opened FbrefScraper

  // ---------------------------------------------------------------- url

  /** The fixtures page: the season's when one is given, the current one otherwise. */
  function DetailsUrl(leagueId: string, seasonId: Option<string>): string {
    "https://fbref.com/en/comps/" + leagueId + "/"
      + (if seasonId.Some? then seasonId.value + "/" else "") + "schedule/"
  }

  /** The url's path segments: the league id after 'comps', then the season id when
      one is given, then 'schedule'. */
  lemma DetailsUrlSegments(leagueId: string, seasonId: Option<string>)
    requires '/' !in leagueId && (seasonId.Some? ==> '/' !in seasonId.value)
    ensures Split(DetailsUrl(leagueId, seasonId), '/') ==
      ["https:", "", "fbref.com", "en", "comps", leagueId]
      + (if seasonId.Some? then [seasonId.value] else []) + ["schedule", ""]
  {
    var parts := ["https:", "", "fbref.com", "en", "comps", leagueId]
      + (if seasonId.Some? then [seasonId.value] else []) + ["schedule", ""];
    DetailsUrlJoin(leagueId, seasonId);
    SplitJoin(parts, '/');
  }

  lemma DetailsUrlJoin(leagueId: string, seasonId: Option<string>)
    ensures Join(["https:", "", "fbref.com", "en", "comps", leagueId]
      + (if seasonId.Some? then [seasonId.value] else []) + ["schedule", ""], "/") == DetailsUrl(leagueId, seasonId)
  {
    var head := ["https:", "", "fbref.com", "en", "comps"];
    var tail := [leagueId] + (if seasonId.Some? then [seasonId.value] else []) + ["schedule", ""];
    assert ["https:", "", "fbref.com", "en", "comps", leagueId]
      + (if seasonId.Some? then [seasonId.value] else []) + ["schedule", ""] == head + tail;
    JoinAppend(head, tail, "/");
    JoinCompsHead();
    DetailsTailJoin(leagueId, seasonId);
    var sp := if seasonId.Some? then seasonId.value + "/" else "";
    ConcatFour("https://fbref.com/en/comps/", leagueId, "/", sp + "schedule/");
  }

  /** `a + (b + c + d) == a + b + c + d` */
  lemma ConcatFour(a: string, b: string, c: string, d: string)
    ensures a + (b + c + d) == a + b + c + d
  {
  }

  lemma JoinCompsHead()
    ensures Join(["https:", "", "fbref.com", "en", "comps"], "/") + "/" == "https://fbref.com/en/comps/"
  {
    var head := ["https:", "", "fbref.com", "en", "comps"];
    JoinUnfold(head, "/");
    JoinUnfold(head[1..], "/");
    JoinUnfold(head[2..], "/");
    JoinUnfold(head[3..], "/");
  }

  lemma DetailsTailJoin(leagueId: string, seasonId: Option<string>)
    ensures Join([leagueId] + (if seasonId.Some? then [seasonId.value] else []) + ["schedule", ""], "/")
      == leagueId + "/" + ((if seasonId.Some? then seasonId.value + "/" else "") + "schedule/")
  {
    var end := ["schedule", ""];
    assert Join(end, "/") == "schedule/" by {
      JoinUnfold(end, "/");
    }
    if seasonId.Some? {
      var mid := [leagueId, seasonId.value];
      assert [leagueId] + [seasonId.value] + end == mid + end;
      JoinAppend(mid, end, "/");
      JoinUnfold(mid, "/");
    } else {
      assert [leagueId] + [] + end == [leagueId] + end;
      JoinAppend([leagueId], end, "/");
    }
  }

  // ---------------------------------------------------------------- dates

  /** The texts of a list of text values. */
  function TextsOf(xs: seq<Value>): (r: seq<string>)
    requires forall i :: 0 <= i < |xs| ==> xs[i].Str?
    ensures |r| == |xs| && forall i :: 0 <= i < |xs| ==> xs[i] == Str(r[i])
  {
    seq(|xs|, i requires 0 <= i < |xs| => xs[i].s)
  }

  /** `min(v)` (or `max(v)` when `largest`): ValueError on an empty sequence, the only
      element of a one-element one, the least (greatest) text otherwise. Comparing a
      non-text with anything raises TypeError. */
  function Extreme(v: Value, largest: bool): (r: Result<Value>)
    ensures Iterate(v).Ok? && |Iterate(v).value| == 0 ==> r == Err(ValueError)
    ensures r.Ok? ==> Iterate(v).Ok? && r.value in Iterate(v).value
  {
    var xs :- Iterate(v);
    if |xs| == 0 then Err(ValueError)
    else if |xs| == 1 then Ok(xs[0])
    else if forall i :: 0 <= i < |xs| ==> xs[i].Str? then
      var texts := TextsOf(xs);
      Ok(Str(if largest then MaxText(texts) else MinText(texts)))
    else Err(TypeError)
  }

  /** On a column of texts the start date precedes, and the end date follows, every
      date of the column. */
  lemma ExtremeBounds(dates: seq<string>)
    requires |dates| > 0
    ensures Extreme(List(Strs(dates)), false).Ok? && Extreme(List(Strs(dates)), true).Ok?
    ensures var first := Extreme(List(Strs(dates)), false).value;
      var last := Extreme(List(Strs(dates)), true).value;
      && first.Str? && last.Str? && first.s in dates && last.s in dates
      && forall i :: 0 <= i < |dates| ==> LexLe(first.s, dates[i]) && LexLe(dates[i], last.s)
  {
    var xs := Strs(dates);
    if |xs| > 1 {
      assert TextsOf(xs) == dates;
    } else {
      LexLeRefl(dates[0]);
    }
  }

  // ---------------------------------------------------------------- rounds

  /** `check_rounds`: the distinct values of the 'round' column, or None without one.
      Python's set gives no order; the model keeps the order of first appearance. */
  function CheckRounds(raw: Dict<Value>): (r: Result<Value>)
    ensures !Has(raw, "round") ==> r == Ok(Null)
    ensures Has(raw, "round") ==> (r.Ok? <==> Iterate(Get(raw, "round").value).Ok?)
    ensures r.Ok? && Has(raw, "round") ==>
      var xs := Iterate(Get(raw, "round").value).value;
      && r.value.List? && Distinct(r.value.items)
      && (forall x :: x in r.value.items <==> x in xs)
  {
    if Has(raw, "round") then
      var xs :- Iterate(Get(raw, "round").value);
      Ok(List(Dedup(xs)))
    else Ok(Null)
  }

  /** `xs.remove(x)`: the first occurrence of `x` dropped; ValueError without one. */
  function RemoveFirst(xs: seq<Value>, x: Value): (r: Result<seq<Value>>)
    ensures r.Ok? <==> x in xs
    ensures r.Err? ==> r.error == ValueError
    ensures r.Ok? ==> |r.value| == |xs| - 1 && multiset(r.value) + multiset{x} == multiset(xs)
  {
    if |xs| == 0 then Err(ValueError)
    else
      assert xs == [xs[0]] + xs[1..];
      if xs[0] == x then Ok(xs[1..])
      else
        var rest :- RemoveFirst(xs[1..], x);
        Ok([xs[0]] + rest)
  }

  /** In a list without repeats, removing a value leaves every other value and not
      that one. */
  lemma {:induction false} RemoveFirstDistinct(xs: seq<Value>, x: Value)
    requires Distinct(xs) && x in xs
    ensures forall y :: y in RemoveFirst(xs, x).value <==> y in xs && y != x
  {
    if xs[0] != x {
      assert Distinct(xs[1..]) by {
        forall i, j | 0 <= i < j < |xs[1..]| ensures xs[1..][i] != xs[1..][j] {
          assert xs[1..][i] == xs[i + 1] && xs[1..][j] == xs[j + 1];
        }
      }
      RemoveFirstDistinct(xs[1..], x);
    } else {
      forall y | y in xs[1..] ensures y != x {
        var j :| 0 <= j < |xs[1..]| && xs[1..][j] == y;
        assert xs[j + 1] == y;
      }
    }
  }

  /** `if 'Round' in rounds: rounds.remove('Round')`, as written: `in` on None raises
      TypeError, so a schedule without a 'round' column fails here. */
  function DropRoundLabel(rounds: Value): (r: Result<Value>)
    ensures rounds.Null? ==> r == Err(TypeError)
  {
    var has :- In(Str("Round"), rounds);
    if has && rounds.List? then
      var rest :- RemoveFirst(rounds.items, Str("Round"));
      Ok(List(rest))
    else Ok(rounds)
  }

  /** The step as evidently intended: no rounds stay None. */
  function DropRoundLabelFixed(rounds: Value): (r: Result<Value>)
    ensures rounds.Null? ==> r == Ok(Null)
    ensures !rounds.Null? ==> r == DropRoundLabel(rounds)
  {
    if rounds.Null? then Ok(Null) else DropRoundLabel(rounds)
  }

  /** With a 'round' column, the rounds that `check_rounds` finds lose the 'Round'
      header label and keep every other value; both versions agree there. */
  lemma DropRoundLabelOfRounds(raw: Dict<Value>)
    requires Has(raw, "round") && CheckRounds(raw).Ok?
    ensures var rounds := CheckRounds(raw).value;
      var xs := Iterate(Get(raw, "round").value).value;
      && DropRoundLabel(rounds).Ok? && DropRoundLabelFixed(rounds) == DropRoundLabel(rounds)
      && DropRoundLabel(rounds).value.List?
      && forall y :: y in DropRoundLabel(rounds).value.items <==> y in xs && y != Str("Round")
  {
    var rounds := CheckRounds(raw).value;
    if Str("Round") in rounds.items {
      RemoveFirstDistinct(rounds.items, Str("Round"));
    }
  }

  // ---------------------------------------------------------------- cleaning

  /** The 'data' record, keys in the order the source assigns them. */
  function DetailsRecord(lgId: int, seasonId: Value, start: Value, end: Value, leagueType: Value,
                         hasAdv: Value, rounds: Value): Dict<Value> {
    [("lg_id", Int(lgId)), ("season_id", seasonId), ("league_start", start), ("league_end", end),
     ("league_type", leagueType), ("has_adv_stats", hasAdv), ("rounds", rounds)]
  }

  /** `{'data': record}` */
  function DetailsData(record: Dict<Value>): Dict<Value> {
    [("data", Map(record))]
  }

  /** 'most_recent_season' stands for a missing season id. */
  function SeasonValue(seasonId: Option<string>): Value {
    if seasonId.Some? then Str(seasonId.value) else Str("most_recent_season")
  }

  /** `int(league_id)`: ValueError on text that is not an integer. */
  function LeagueNumber(leagueId: string): (r: Result<int>)
    ensures r.Ok? <==> ParseInt(leagueId).Some?
    ensures r.Ok? ==> r.value == ParseInt(leagueId).value
  {
    match ParseInt(leagueId)
    case Some(n) => Ok(n)
    case None => Err(ValueError)
  }

  /** `has_adv_stats, league_type = get_league_type_adv(league_id)`: unpacking `None`
      raises TypeError. */
  function TypeAndAdv(registry: Dict<Value>, leagueId: string): (r: Result<(Value, Value)>)
    ensures r.Ok? <==> GetLeagueTypeAdv(registry, leagueId).Some?
    ensures r.Ok? ==> r.value == GetLeagueTypeAdv(registry, leagueId).value
    ensures r.Err? ==> r.error == TypeError
  {
    match GetLeagueTypeAdv(registry, leagueId)
    case Some(p) => Ok(p)
    case None => Err(TypeError)
  }

  /** `clean_league_season_details`, with the rounds step given as `fixed` (evidently
      intended) or as written. */
  function Details(raw: Dict<Value>, leagueId: string, seasonId: Option<string>, registry: Dict<Value>,
                   fixed: bool): Result<Dict<Value>> {
    var lg :- LeagueNumber(leagueId);
    var dates :- Lookup(raw, "date");
    var start :- Extreme(dates, false);
    var end :- Extreme(dates, true);
    var typeAdv :- TypeAndAdv(registry, leagueId);
    var found :- CheckRounds(raw);
    var rounds :- if fixed then DropRoundLabelFixed(found) else DropRoundLabel(found);
    Ok(DetailsData(DetailsRecord(lg, SeasonValue(seasonId), start, end, typeAdv.1, typeAdv.0, rounds)))
  }

  /** `clean_league_season_details` as written. */
  function CleanLeagueSeasonDetails(raw: Dict<Value>, leagueId: string, seasonId: Option<string>,
                                    registry: Dict<Value>): Result<Dict<Value>> {
    Details(raw, leagueId, seasonId, registry, false)
  }

  /** `clean_league_season_details` with the None check on the rounds. */
  function CleanLeagueSeasonDetailsFixed(raw: Dict<Value>, leagueId: string, seasonId: Option<string>,
                                         registry: Dict<Value>): Result<Dict<Value>> {
    Details(raw, leagueId, seasonId, registry, true)
  }

  /** As written, a schedule without a 'round' column always fails with TypeError,
      even when every other step succeeds. */
  lemma CleanLeagueSeasonDetailsWithoutRounds(raw: Dict<Value>, leagueId: string, seasonId: Option<string>,
                                              registry: Dict<Value>)
    requires !Has(raw, "round")
    ensures CleanLeagueSeasonDetails(raw, leagueId, seasonId, registry).Err?
    ensures CleanLeagueSeasonDetailsFixed(raw, leagueId, seasonId, registry).Ok? ==>
      CleanLeagueSeasonDetails(raw, leagueId, seasonId, registry) == Err(TypeError)
  {
    var asWritten := CleanLeagueSeasonDetails(raw, leagueId, seasonId, registry);
    var fixed := CleanLeagueSeasonDetailsFixed(raw, leagueId, seasonId, registry);
    var lg := LeagueNumber(leagueId);
    var dates := Lookup(raw, "date");
    if lg.Err? {
      assert asWritten == Err(lg.error) && fixed.Err?;
    } else if dates.Err? {
      assert asWritten == Err(dates.error) && fixed.Err?;
    } else {
      DetailsWithoutRoundsAfterDates(raw, leagueId, seasonId, registry, lg.value, dates.value);
    }
  }

  /** Once the league number and the dates are read, a missing 'round' column fails
      the function as written, with TypeError when every other step succeeds. */
  lemma DetailsWithoutRoundsAfterDates(raw: Dict<Value>, leagueId: string, seasonId: Option<string>,
                                       registry: Dict<Value>, lg: int, dates: Value)
    requires !Has(raw, "round")
    requires LeagueNumber(leagueId) == Ok(lg) && Lookup(raw, "date") == Ok(dates)
    ensures CleanLeagueSeasonDetails(raw, leagueId, seasonId, registry).Err?
    ensures CleanLeagueSeasonDetailsFixed(raw, leagueId, seasonId, registry).Ok? ==>
      CleanLeagueSeasonDetails(raw, leagueId, seasonId, registry) == Err(TypeError)
  {
    var start := Extreme(dates, false);
    var end := Extreme(dates, true);
    var typeAdv := TypeAndAdv(registry, leagueId);
    assert CheckRounds(raw) == Ok(Null);
    assert DropRoundLabel(Null) == Err(TypeError);
    if start.Ok? && end.Ok? && typeAdv.Ok? {
      assert CleanLeagueSeasonDetails(raw, leagueId, seasonId, registry) == Err(TypeError);
    }
  }

  /** The corrected version: the record holds the league number, the season (or
      'most_recent_season'), the first and last date of the schedule, the registry's
      league type and advanced-stats flag, and no rounds when the schedule has no
      'round' column. */
  lemma CleanLeagueSeasonDetailsFixedRecord(raw: Dict<Value>, leagueId: string, seasonId: Option<string>,
                                            registry: Dict<Value>, dates: seq<string>)
    requires ParseInt(leagueId).Some? && GetLeagueTypeAdv(registry, leagueId).Some?
    requires Get(raw, "date") == Some(List(Strs(dates))) && |dates| > 0
    requires !Has(raw, "round")
    ensures CleanLeagueSeasonDetailsFixed(raw, leagueId, seasonId, registry).Ok?
    ensures var rec := CleanLeagueSeasonDetailsFixed(raw, leagueId, seasonId, registry).value[0].1.m;
      var ta := GetLeagueTypeAdv(registry, leagueId).value;
      && rec[0] == ("lg_id", Int(ParseInt(leagueId).value))
      && rec[1] == ("season_id", SeasonValue(seasonId))
      && rec[2].1.Str? && rec[2].1.s in dates && (forall i :: 0 <= i < |dates| ==> LexLe(rec[2].1.s, dates[i]))
      && rec[3].1.Str? && rec[3].1.s in dates && (forall i :: 0 <= i < |dates| ==> LexLe(dates[i], rec[3].1.s))
      && rec[4] == ("league_type", ta.1) && rec[5] == ("has_adv_stats", ta.0)
      && rec[6] == ("rounds", Null)
  {
    ExtremeBounds(dates);
    var start := Extreme(List(Strs(dates)), false).value;
    var end := Extreme(List(Strs(dates)), true).value;
    var ta := GetLeagueTypeAdv(registry, leagueId).value;
    DetailsFixedWithoutRounds(raw, leagueId, seasonId, registry, List(Strs(dates)), start, end, ta);
    var rec := DetailsRecord(ParseInt(leagueId).value, SeasonValue(seasonId), start, end, ta.1, ta.0, Null);
    assert CleanLeagueSeasonDetailsFixed(raw, leagueId, seasonId, registry).value[0].1.m == rec;
    assert rec[2].1 == start && rec[3].1 == end;
  }

  /** Every step succeeds and the rounds stay None. */
  lemma DetailsFixedWithoutRounds(raw: Dict<Value>, leagueId: string, seasonId: Option<string>, registry: Dict<Value>,
                                  dates: Value, start: Value, end: Value, ta: (Value, Value))
    requires ParseInt(leagueId).Some? && GetLeagueTypeAdv(registry, leagueId) == Some(ta)
    requires Get(raw, "date") == Some(dates) && Extreme(dates, false) == Ok(start) && Extreme(dates, true) == Ok(end)
    requires !Has(raw, "round")
    ensures CleanLeagueSeasonDetailsFixed(raw, leagueId, seasonId, registry)
      == Ok(DetailsData(DetailsRecord(ParseInt(leagueId).value, SeasonValue(seasonId), start, end, ta.1, ta.0, Null)))
  {
    assert Lookup(raw, "date") == Ok(dates);
  }

  /** `clean_league_season_details`: the values computed in the source's order, the
      fresh 'data' dict filled key by key, then 'Round' removed from the rounds. */
  method CleanLeagueSeasonDetailsSteps(raw: Dict<Value>, leagueId: string, seasonId: Option<string>,
                                       registry: Dict<Value>) returns (r: Result<Dict<Value>>)
    ensures r == CleanLeagueSeasonDetails(raw, leagueId, seasonId, registry)
  {
    var lg :- LeagueNumber(leagueId);
    var dates :- Lookup(raw, "date");
    var start :- Extreme(dates, false);
    var end :- Extreme(dates, true);
    var typeAdv :- TypeAndAdv(registry, leagueId);
    var rounds :- CheckRounds(raw);
    var data := FillDetails(lg, SeasonValue(seasonId), start, end, typeAdv.1, typeAdv.0, rounds);
    var dropped :- RemoveRoundLabel(rounds);
    SetRounds(lg, SeasonValue(seasonId), start, end, typeAdv.1, typeAdv.0, rounds, dropped);
    data := SetItem(data, "rounds", dropped);
    return Ok(DetailsData(data));
  }

  /** `if 'Round' in rounds: rounds.remove('Round')` on the list the record holds. */
  method RemoveRoundLabel(rounds: Value) returns (r: Result<Value>)
    ensures r == DropRoundLabel(rounds)
  {
    var has :- In(Str("Round"), rounds);
    r := Ok(rounds);
    if has && rounds.List? {
      r := Ok(List(RemoveFirst(rounds.items, Str("Round")).value));
    }
  }

  lemma SetRounds(lgId: int, seasonId: Value, start: Value, end: Value, leagueType: Value,
                  hasAdv: Value, rounds: Value, x: Value)
    ensures SetItem(DetailsRecord(lgId, seasonId, start, end, leagueType, hasAdv, rounds), "rounds", x)
      == DetailsRecord(lgId, seasonId, start, end, leagueType, hasAdv, x)
  {
    var d := DetailsRecord(lgId, seasonId, start, end, leagueType, hasAdv, rounds);
    FindOfKey(d, 6);
  }

  /** The successive assignments into the fresh 'data' dict. */
  method FillDetails(lgId: int, seasonId: Value, start: Value, end: Value, leagueType: Value,
                     hasAdv: Value, rounds: Value) returns (data: Dict<Value>)
    ensures data == DetailsRecord(lgId, seasonId, start, end, leagueType, hasAdv, rounds)
  {
    data := [("lg_id", Int(lgId))];
    data := Assign(data, "season_id", seasonId);
    data := Assign(data, "league_start", start);
    data := Assign(data, "league_end", end);
    data := Assign(data, "league_type", leagueType);
    data := Assign(data, "has_adv_stats", hasAdv);
    data := Assign(data, "rounds", rounds);
  }

  /** `data[k] = v` for a key `data` does not hold yet. */
  method Assign(data: Dict<Value>, k: string, v: Value) returns (r: Dict<Value>)
    requires forall i :: 0 <= i < |data| ==> data[i].0 != k
    ensures r == data + [(k, v)]
  {
    SetItemFresh(data, k, v);
    r := SetItem(data, k, v);
  }
}
