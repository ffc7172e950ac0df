/** The player cleaner of `fbref_players_scraper.py`: the date of birth kept when it is
    already ISO text, the birthplace split into city and country, and height and weight
    read out of their text. The page itself is not modelled: the fields
    `scrape_player_data` parses come in as values. NaN is `Null`. */
module Players {
  import opened Wrappers
  import opened Text
  import opened Dicts
  import opened Values
  import Lists

  /** A text or NaN, as a value. */
  function OptStr(o: Option<string>): Value {
    if o.Some? then Str(o.value) else Null
  }

  // ---------------------------------------------------------------- date of birth

  /** `\d{4}-\d{2}-\d{2}` matches at position `i` of `s`. */
  predicate IsoDateAt(s: string, i: int) {
    0 <= i && i + 10 <= |s|
    && IsDigit(s[i]) && IsDigit(s[i + 1]) && IsDigit(s[i + 2]) && IsDigit(s[i + 3])
    && s[i + 4] == '-' && IsDigit(s[i + 5]) && IsDigit(s[i + 6])
    && s[i + 7] == '-' && IsDigit(s[i + 8]) && IsDigit(s[i + 9])
  }

  /** `re.findall(r"\d{4}-\d{2}-\d{2}", s)` finds something. */
  predicate HasIsoDate(s: string) {
    exists i :: 0 <= i <= |s| - 10 && IsoDateAt(s, i)
  }

  /** `strptime(text, '%B %d, %Y')` formatted with `strftime('%Y-%m-%d')`, or `None`
      where `strptime` raises. */
  type DateParser = string -> Option<string>

  /** `clean_players_dob`: text that already holds an ISO date is returned unchanged;
      other text loses its newlines and surrounding whitespace and goes to the date
      parser. Anything but text makes `re.sub` raise, which gives `None`. */
  function CleanDob(raw: Value, parseDate: DateParser): Value {
    if raw.Str? then
      if HasIsoDate(raw.s) then raw
      else OptStr(parseDate(Strip(MapChar(raw.s, '\n', ""))))
    else Null
  }

  /** Text with an ISO date in it is left alone; a value that is not text becomes None. */
  lemma CleanDobShortcut(raw: Value, parseDate: DateParser)
    ensures raw.Str? && HasIsoDate(raw.s) ==> CleanDob(raw, parseDate) == raw
    ensures !raw.Str? ==> CleanDob(raw, parseDate) == Null
  {
  }

  /** When the parser always produces an ISO date, cleaning a cleaned date changes
      nothing: the shortcut catches every value the parser produced. */
  lemma CleanDobIdempotent(raw: Value, parseDate: DateParser)
    requires forall t :: parseDate(t).Some? ==> HasIsoDate(parseDate(t).value)
    ensures CleanDob(CleanDob(raw, parseDate), parseDate) == CleanDob(raw, parseDate)
  {
    if raw.Str? && !HasIsoDate(raw.s) {
      var t := Strip(MapChar(raw.s, '\n', ""));
      if parseDate(t).Some? {
        assert HasIsoDate(parseDate(t).value);
      }
    }
  }

  // ---------------------------------------------------------------- birthplace

  /** The characters `['\[\]\",]` that both birthplace fields lose. */
  predicate IsQuoteChar(c: char) {
    c == '\'' || c == '[' || c == ']' || c == '"' || c == ','
  }

  /** `re.sub(r"['\[\]\",]", "", s)`: quotes, brackets and commas deleted, the rest kept. */
  function DropQuotes(s: string): (r: string)
    ensures forall c :: c in r ==> c in s && !IsQuoteChar(c)
    ensures (forall k :: 0 <= k < |s| ==> !IsQuoteChar(s[k])) ==> r == s
    decreases |s|
  {
    if s == [] then []
    else
      var rest := DropQuotes(s[1..]);
      assert forall k :: 0 <= k < |s| - 1 ==> s[1..][k] == s[k + 1];
      if IsQuoteChar(s[0]) then rest else [s[0]] + rest
  }

  /** "in" followed by a whitespace character starts at position `i`. */
  predicate InSpaceAt(s: string, i: int) {
    0 <= i && i + 3 <= |s| && s[i] == 'i' && s[i + 1] == 'n' && IsSpace(s[i + 2])
  }

  /** `re.sub(r"in\s", "", s)`: scanning left to right, every "in" followed by a
      whitespace character is deleted together with that character, wherever it
      stands, inside a word too. */
  function DropInSpace(s: string): string
    decreases |s|
  {
    if InSpaceAt(s, 0) then DropInSpace(s[3..])
    else if s == [] then []
    else [s[0]] + DropInSpace(s[1..])
  }

  /** Deleting keeps no character the text did not have. */
  lemma {:induction false} DropInSpaceChars(s: string)
    ensures forall c :: c in DropInSpace(s) ==> c in s
    decreases |s|
  {
    if InSpaceAt(s, 0) {
      DropInSpaceChars(s[3..]);
    } else if s != [] {
      DropInSpaceChars(s[1..]);
    }
  }

  /** Text without "in" followed by whitespace is left alone. */
  lemma {:induction false} DropInSpaceNoHit(s: string)
    requires forall i :: 0 <= i < |s| ==> !InSpaceAt(s, i)
    ensures DropInSpace(s) == s
    decreases |s|
  {
    if s != [] {
      assert !InSpaceAt(s, 0);
      forall i | 0 <= i < |s| - 1 ensures !InSpaceAt(s[1..], i) {
        InSpaceAtTail(s, i);
      }
      DropInSpaceNoHit(s[1..]);
    }
  }

  /** Dropping the first character shifts every match one place left. */
  lemma InSpaceAtTail(s: string, i: nat)
    requires |s| > 0
    ensures InSpaceAt(s[1..], i) <==> InSpaceAt(s, i + 1)
  {
  }

  /** What `re.sub(r"in\s", ...)` is there for: the leading word "in" that the page
      puts before a birthplace, and nothing inside the names. */
  function DropLeadingIn(s: string): (r: string)
    ensures forall c :: c in r ==> c in s
  {
    var t := StripLeft(s);
    if InSpaceAt(t, 0) then t[3..] else t
  }

  /** The characters of the stripped text are characters of the text. */
  lemma StripChars(s: string)
    ensures forall c :: c in Strip(s) ==> c in s
  {
    var l := StripLeft(s);
    assert forall c :: c in StripRight(l) ==> c in l;
    assert forall c :: c in l ==> c in s;
  }

  /** The country: the last comma field without quotes, brackets and the word "in". */
  function CountryText(field: string, leadingInOnly: bool): string {
    var t := DropQuotes(field);
    Strip(if leadingInOnly then DropLeadingIn(t) else DropInSpace(t))
  }

  /** The city: the first comma field, cleaned the same way and with hyphens read as
      spaces. */
  function CityText(field: string, leadingInOnly: bool): string {
    var t := MapChar(DropQuotes(field), '-', " ");
    Strip(if leadingInOnly then DropLeadingIn(t) else DropInSpace(t))
  }

  /** A cleaned birthplace part: no quotes, brackets or commas, no whitespace at the ends. */
  predicate IsCleanPart(t: string) {
    (forall c :: c in t ==> !IsQuoteChar(c))
    && (t == [] || (!IsSpace(t[0]) && !IsSpace(t[|t| - 1])))
  }

  lemma CountryTextClean(field: string, leadingInOnly: bool)
    ensures IsCleanPart(CountryText(field, leadingInOnly))
  {
    var t := DropQuotes(field);
    var u := if leadingInOnly then DropLeadingIn(t) else DropInSpace(t);
    DropInSpaceChars(t);
    StripChars(u);
    StripEnds(u);
  }

  lemma CityTextClean(field: string, leadingInOnly: bool)
    ensures IsCleanPart(CityText(field, leadingInOnly))
    ensures '-' !in CityText(field, leadingInOnly)
  {
    var q := DropQuotes(field);
    var t := MapChar(q, '-', " ");
    DashesToSpaces(q);
    var u := if leadingInOnly then DropLeadingIn(t) else DropInSpace(t);
    DropInSpaceChars(t);
    StripChars(u);
    StripEnds(u);
  }

  /** Hyphens read as spaces: no hyphen is left and nothing else is added. */
  lemma DashesToSpaces(q: string)
    ensures forall c :: c in MapChar(q, '-', " ") ==> c in q || c == ' '
    ensures '-' !in MapChar(q, '-', " ")
  {
    var t := MapChar(q, '-', " ");
    MapCharPointwise(q, '-', ' ');
    forall c | c in t ensures c in q || c == ' ' {
      var k :| 0 <= k < |t| && t[k] == c;
      assert c == if q[k] == '-' then ' ' else q[k];
    }
  }

  /** Birth city and birth country, each text or NaN. */
  datatype Birthplace = Birthplace(city: Option<string>, country: Option<string>)

  /** The try block of `clean_players_birthplace`. The country comes from the last comma
      field, the city from the first when there are two or more; a city equal to the
      country is dropped. Anything but text makes `split` raise, and both are NaN.
      `leadingInOnly` selects the corrected removal of "in". */
  function BirthplaceParts(raw: Value, leadingInOnly: bool): (p: Birthplace)
    ensures !raw.Str? ==> p == Birthplace(None, None)
    ensures raw.Str? ==> p.country.Some? && IsCleanPart(p.country.value)
    ensures p.city.Some? ==> raw.Str? && ',' in raw.s && p.city != p.country
    ensures p.city.Some? ==> IsCleanPart(p.city.value) && '-' !in p.city.value
  {
    if raw.Str? then
      var fields := Split(raw.s, ',');
      var country := CountryText(fields[|fields| - 1], leadingInOnly);
      CountryTextClean(fields[|fields| - 1], leadingInOnly);
      if |fields| == 1 then Birthplace(None, Some(country))
      else
        var city := CityText(fields[0], leadingInOnly);
        CityTextClean(fields[0], leadingInOnly);
        if ',' !in raw.s then
          SplitWithoutSep(raw.s, ',');
          Birthplace(None, Some(country))
        else if city == country then Birthplace(None, Some(country))
        else Birthplace(Some(city), Some(country))
    else Birthplace(None, None)
  }

  /** `clean_players_birthplace(city_raw, return_value)`: the pair for 'all', one part
      for 'city' or 'country', ValueError for anything else. A tuple is a two-item list. */
  function CleanBirthplace(raw: Value, returnValue: string): (r: Result<Value>)
    ensures r.Err? <==> returnValue != "all" && returnValue != "city" && returnValue != "country"
    ensures r.Err? ==> r.error == ValueError
    ensures returnValue == "city" ==> r == Ok(OptStr(BirthplaceParts(raw, false).city))
    ensures returnValue == "country" ==> r == Ok(OptStr(BirthplaceParts(raw, false).country))
  {
    var p := BirthplaceParts(raw, false);
    if returnValue == "all" then Ok(List([OptStr(p.city), OptStr(p.country)]))
    else if returnValue == "city" then Ok(OptStr(p.city))
    else if returnValue == "country" then Ok(OptStr(p.country))
    else Err(ValueError)
  }

  /** A name the cleaner leaves as it is: no quotes, brackets or commas, no hyphen,
      no whitespace at the ends. */
  predicate IsPlainName(t: string) {
    IsCleanPart(t) && '-' !in t
  }

  /** The text the page shows, "in <city>, <country>". */
  function PlaceText(city: string, country: string): string {
    "in " + city + ", " + country
  }

  /** The comma fields of the page's text. */
  lemma PlaceFields(city: string, country: string)
    requires IsPlainName(city) && IsCleanPart(country)
    ensures ',' in PlaceText(city, country)
    ensures Split(PlaceText(city, country), ',') == ["in " + city, " " + country]
  {
    var a := "in " + city;
    var b := " " + country;
    assert PlaceText(city, country) == a + [','] + b;
    assert ',' !in a;
    assert ',' !in b;
    SplitAfter(a, b, ',');
    SplitWithoutSep(b, ',');
  }

  /** The quote removal and the hyphens leave "in <city>" alone. */
  lemma InCityKept(city: string)
    requires IsPlainName(city)
    ensures MapChar(DropQuotes("in " + city), '-', " ") == "in " + city
  {
    var a := "in " + city;
    assert forall k :: 0 <= k < |a| ==> !IsQuoteChar(a[k]) by {
      forall k | 0 <= k < |a| ensures !IsQuoteChar(a[k]) {
        if k >= 3 { assert a[k] == city[k - 3]; }
      }
    }
    assert '-' !in a;
    MapCharKeepsOthers(a, '-', " ");
  }

  /** The quote removal leaves " <country>" alone. */
  lemma SpacedCountryKept(country: string)
    requires IsCleanPart(country)
    ensures DropQuotes(" " + country) == " " + country
  {
    var b := " " + country;
    assert forall k :: 0 <= k < |b| ==> !IsQuoteChar(b[k]) by {
      forall k | 0 <= k < |b| ensures !IsQuoteChar(b[k]) {
        if k >= 1 { assert b[k] == country[k - 1]; }
      }
    }
  }

  /** `strip()` of a space and a clean part gives the part back. */
  lemma StripSpaced(t: string)
    requires IsCleanPart(t)
    ensures Strip(" " + t) == t
  {
    var s := " " + t;
    assert s[1..] == t;
    assert StripLeft(s) == StripLeft(t);
    StripNoop(t);
    if t != [] {
      assert StripLeft(t) == t;
    }
  }

  /** The page's text is cut at its comma into the "in <city>" and " <country>" fields,
      each cleaned on its own; a city equal to the country is dropped. */
  lemma PlaceParts(city: string, country: string, leadingInOnly: bool)
    requires IsPlainName(city) && IsCleanPart(country)
    ensures var c := CityText("in " + city, leadingInOnly);
      var k := CountryText(" " + country, leadingInOnly);
      BirthplaceParts(Str(PlaceText(city, country)), leadingInOnly)
        == if c == k then Birthplace(None, Some(k)) else Birthplace(Some(c), Some(k))
  {
    PlaceFields(city, country);
  }

  /** As written, "in <city>" loses the "in " and nothing else when the city holds no
      other "in" followed by whitespace. */
  lemma CityTextOf(city: string)
    requires IsPlainName(city)
    requires forall i :: 0 <= i < |city| ==> !InSpaceAt(city, i)
    ensures CityText("in " + city, false) == city
  {
    InCityKept(city);
    var a := "in " + city;
    assert InSpaceAt(a, 0);
    assert a[3..] == city;
    DropInSpaceNoHit(city);
    assert DropInSpace(a) == city;
    StripNoop(city);
  }

  /** As written, " <country>" loses the space when the country holds no "in" followed
      by whitespace. */
  lemma CountryTextOf(country: string)
    requires IsCleanPart(country)
    requires forall i :: 0 <= i < |country| ==> !InSpaceAt(country, i)
    ensures CountryText(" " + country, false) == country
  {
    SpacedCountryKept(country);
    var b := " " + country;
    assert forall i :: 0 <= i < |b| ==> !InSpaceAt(b, i) by {
      forall i | 0 <= i < |b| ensures !InSpaceAt(b, i) {
        if 0 < i && i + 3 <= |b| {
          assert b[i] == country[i - 1] && b[i + 1] == country[i] && b[i + 2] == country[i + 1];
          assert !InSpaceAt(country, i - 1);
        }
      }
    }
    DropInSpaceNoHit(b);
    StripSpaced(country);
  }

  /** As written: a birthplace whose names hold no "in" followed by whitespace is read
      back as the city and country the page shows. */
  lemma BirthplaceReadsBack(city: string, country: string)
    requires IsPlainName(city) && IsCleanPart(country) && city != country
    requires forall i :: 0 <= i < |city| ==> !InSpaceAt(city, i)
    requires forall i :: 0 <= i < |country| ==> !InSpaceAt(country, i)
    ensures BirthplaceParts(Str(PlaceText(city, country)), false) == Birthplace(Some(city), Some(country))
  {
    CityTextOf(city);
    CountryTextOf(country);
    PlaceParts(city, country, false);
  }

  /** Deleting never lengthens the text. */
  lemma {:induction false} DropInSpaceNoLonger(s: string)
    ensures |DropInSpace(s)| <= |s|
    decreases |s|
  {
    if InSpaceAt(s, 0) {
      DropInSpaceNoLonger(s[3..]);
    } else if s != [] {
      DropInSpaceNoLonger(s[1..]);
    }
  }

  /** A text holding "in" followed by whitespace anywhere comes out shorter. */
  lemma {:induction false} DropInSpaceShorter(s: string, i: nat)
    requires InSpaceAt(s, i)
    ensures |DropInSpace(s)| < |s|
    decreases |s|
  {
    if InSpaceAt(s, 0) {
      DropInSpaceNoLonger(s[3..]);
    } else {
      InSpaceAtTail(s, i - 1);
      DropInSpaceShorter(s[1..], i - 1);
    }
  }

  /** As written, a city holding "in" followed by whitespace is not read back. */
  lemma CityNotReadBack(city: string, i: nat)
    requires IsPlainName(city) && InSpaceAt(city, i)
    ensures CityText("in " + city, false) != city
  {
    InCityKept(city);
    var a := "in " + city;
    assert InSpaceAt(a, 0);
    assert a[3..] == city;
    DropInSpaceShorter(city, i);
  }

  /** As written, a country holding "in" followed by whitespace is not read back. */
  lemma CountryNotReadBack(country: string, i: nat)
    requires IsCleanPart(country) && InSpaceAt(country, i)
    ensures CountryText(" " + country, false) != country
  {
    SpacedCountryKept(country);
    var b := " " + country;
    assert !InSpaceAt(b, 0);
    assert b[1..] == country;
    DropInSpaceShorter(country, i);
    var u := DropInSpace(b);
    assert u == " " + DropInSpace(country);
    assert u[1..] == DropInSpace(country);
    assert StripLeft(u) == StripLeft(u[1..]);
  }

  /** As written, city and country are read back exactly when neither holds "in"
      followed by whitespace. */
  lemma BirthplaceReadsBackExactly(city: string, country: string)
    requires IsPlainName(city) && IsCleanPart(country) && city != country
    ensures BirthplaceParts(Str(PlaceText(city, country)), false) == Birthplace(Some(city), Some(country))
      <==> ((forall i :: 0 <= i < |city| ==> !InSpaceAt(city, i))
            && (forall i :: 0 <= i < |country| ==> !InSpaceAt(country, i)))
  {
    PlaceParts(city, country, false);
    if i :| 0 <= i < |city| && InSpaceAt(city, i) {
      CityNotReadBack(city, i);
    } else if i :| 0 <= i < |country| && InSpaceAt(country, i) {
      CountryNotReadBack(country, i);
    } else {
      BirthplaceReadsBack(city, country);
    }
  }

  /** "in Benin City" as written: the "in " at the end of "Benin" goes as well. */
  lemma BeninCityText()
    ensures CityText("in " + "Benin City", false) == "BenCity"
  {
    BeninKept();
    BeninDrop();
    BenCityStripped();
  }

  lemma BeninKept()
    ensures MapChar(DropQuotes("in " + "Benin City"), '-', " ") == "in " + "Benin City"
  {
    BeninPlain();
    InCityKept("Benin City");
  }

  lemma BenCityStripped()
    ensures Strip("BenCity") == "BenCity"
  {
    var b := "BenCity";
    assert b[0] == 'B' && b[|b| - 1] == 'y';
    LetterNotSpace('B');
    LetterNotSpace('y');
    StripNoop(b);
  }

  lemma BeninDrop()
    ensures DropInSpace("in " + "Benin City") == "BenCity"
  {
    BeninDropLeading();
    BeninDropInside();
    BeninDropCity();
    BenCity();
  }

  lemma BenCity()
    ensures "B" + ("e" + ("n" + "City")) == "BenCity"
  {
    assert "n" + "City" == "nCity";
    assert "e" + "nCity" == "enCity";
  }

  /** The leading "in " goes. */
  lemma BeninDropLeading()
    ensures DropInSpace("in " + "Benin City") == DropInSpace("Benin City")
  {
    assert InSpaceAt("in " + "Benin City", 0) && ("in " + "Benin City")[3..] == "Benin City";
  }

  /** "Benin" keeps "Ben" and loses "in ". */
  lemma BeninDropInside()
    ensures DropInSpace("Benin City") == "B" + ("e" + ("n" + DropInSpace("City")))
  {
    assert DropInSpace("Benin City") == "B" + DropInSpace("enin City") by {
      assert !InSpaceAt("Benin City", 0) && "Benin City"[1..] == "enin City";
    }
    assert DropInSpace("enin City") == "e" + DropInSpace("nin City") by {
      assert !InSpaceAt("enin City", 0) && "enin City"[1..] == "nin City";
    }
    BeninDropNin();
  }

  lemma BeninDropNin()
    ensures DropInSpace("nin City") == "n" + DropInSpace("City")
  {
    assert DropInSpace("nin City") == "n" + DropInSpace("in City") by {
      assert !InSpaceAt("nin City", 0) && "nin City"[1..] == "in City";
    }
    assert InSpaceAt("in City", 0) && "in City"[3..] == "City";
  }

  /** "City" holds no "in" followed by a space. */
  lemma BeninDropCity()
    ensures DropInSpace("City") == "City"
  {
    forall i | 0 <= i < 4 ensures !InSpaceAt("City", i) {
      if i == 1 {
        assert "City"[2] == 't';
      }
    }
    DropInSpaceNoHit("City");
  }

  lemma LetterNotSpace(c: char)
    requires IsUpper(c) || IsLower(c)
    ensures !IsSpace(c)
  {
  }

  /** The counterexample: "in Benin City, Nigeria" gives the city "BenCity". */
  lemma BirthplaceAsWritten()
    ensures BirthplaceParts(Str(PlaceText("Benin City", "Nigeria")), false) == Birthplace(Some("BenCity"), Some("Nigeria"))
  {
    BeninPlain();
    NigeriaPlain();
    BeninCityText();
    CountryTextOf("Nigeria");
    PlaceParts("Benin City", "Nigeria", false);
    assert "BenCity"[0] != "Nigeria"[0];
  }

  lemma BeninPlain()
    ensures IsPlainName("Benin City")
  {
    var c := "Benin City";
    assert c[0] == 'B' && c[|c| - 1] == 'y';
    LetterNotSpace('B');
    LetterNotSpace('y');
  }

  lemma NigeriaPlain()
    ensures IsCleanPart("Nigeria")
    ensures forall i :: 0 <= i < |"Nigeria"| ==> !InSpaceAt("Nigeria", i)
  {
    var c := "Nigeria";
    assert c[0] == 'N' && c[|c| - 1] == 'a';
    LetterNotSpace('N');
    LetterNotSpace('a');
    forall i | 0 <= i < |c| ensures !InSpaceAt(c, i) {
      if i == 1 {
        assert c[2] == 'g';
      }
    }
  }

  /** Corrected, "in <city>" loses the leading "in " only. */
  lemma CityTextFixedOf(city: string)
    requires IsPlainName(city)
    ensures CityText("in " + city, true) == city
  {
    InCityKept(city);
    var a := "in " + city;
    assert MapChar(DropQuotes(a), '-', " ") == a;
    assert StripLeft(a) == a by {
      assert !IsSpace(a[0]);
    }
    assert InSpaceAt(a, 0) && a[3..] == city;
    assert DropLeadingIn(a) == city;
    StripNoop(city);
  }

  /** `lstrip()` of a space and a part that starts with no whitespace gives the part. */
  lemma StripLeftSpaced(t: string)
    requires t == [] || !IsSpace(t[0])
    ensures StripLeft(" " + t) == t
  {
    var b := " " + t;
    assert b[0] == ' ' && b[1..] == t;
    assert StripLeft(b) == StripLeft(t);
  }

  /** The corrected removal takes the space in front of a country and nothing else. */
  lemma DropLeadingInSpaced(country: string)
    requires IsCleanPart(country) && !InSpaceAt(country, 0)
    ensures DropLeadingIn(" " + country) == country
  {
    StripLeftSpaced(country);
  }

  /** Corrected, " <country>" loses the space, and an "in" inside the name stays. */
  lemma CountryTextFixedOf(country: string)
    requires IsCleanPart(country) && !InSpaceAt(country, 0)
    ensures CountryText(" " + country, true) == country
  {
    SpacedCountryKept(country);
    DropLeadingInSpaced(country);
    StripNoop(country);
  }

  /** Corrected: every plain city name is read back, "Benin City" included. */
  lemma BirthplaceFixedReadsBack(city: string, country: string)
    requires IsPlainName(city) && IsCleanPart(country) && city != country
    requires !InSpaceAt(country, 0)
    ensures BirthplaceParts(Str(PlaceText(city, country)), true) == Birthplace(Some(city), Some(country))
  {
    CityTextFixedOf(city);
    CountryTextFixedOf(country);
    PlaceParts(city, country, true);
  }

  // ---------------------------------------------------------------- height and weight

  /** `unit` starts at position `k` right after a digit: where a match of
      `\s*(\d+)unit` ends its digits. */
  predicate UnitAfterDigit(s: string, unit: string, k: int) {
    0 < k && OccursAt(s, unit, k) && IsDigit(s[k - 1])
  }

  /** The first position from `k` on where `unit` follows a digit, or `|s|`. */
  function FindUnit(s: string, unit: string, k: nat): (j: nat)
    requires |unit| > 0 && k <= |s|
    ensures k <= j <= |s|
    ensures j == |s| || UnitAfterDigit(s, unit, j)
    ensures forall i :: k <= i < j ==> !UnitAfterDigit(s, unit, i)
    decreases |s| - k
  {
    if k == |s| || UnitAfterDigit(s, unit, k) then k else FindUnit(s, unit, k + 1)
  }

  /** The start of the run of digits that ends at `k`. */
  function DigitRunStart(s: string, k: nat): (j: nat)
    requires k <= |s|
    ensures j <= k && AllDigits(s[j..k])
    ensures j == 0 || !IsDigit(s[j - 1])
    ensures k > 0 && IsDigit(s[k - 1]) ==> j < k
    decreases k
  {
    if k > 0 && IsDigit(s[k - 1]) then
      var j := DigitRunStart(s, k - 1);
      assert forall i :: j <= i < k ==> IsDigit(s[i]) by {
        assert forall i :: j <= i < k - 1 ==> s[j..k - 1][i - j] == s[i];
      }
      j
    else k
  }

  /** A run of digits that starts after a non-digit is where `DigitRunStart` goes. */
  lemma {:induction false} DigitRunStartOf(s: string, j: nat, k: nat)
    requires j <= k <= |s| && AllDigits(s[j..k]) && (j == 0 || !IsDigit(s[j - 1]))
    ensures DigitRunStart(s, k) == j
    decreases k
  {
    if k > j {
      assert IsDigit(s[j..k][k - 1 - j]);
      assert s[j..k - 1] == s[j..k][..k - 1 - j];
      DigitRunStartOf(s, j, k - 1);
    }
  }

  /** `re.findall(r"\s*(\d+)" + unit, s)[0]`: the whole run of digits right before the
      first `unit` that follows a digit, if there is one. Leading whitespace only
      widens the match, never the group. */
  function UnitDigits(s: string, unit: string): (r: Option<string>)
    requires |unit| > 0
    ensures r.Some? ==> IsDigits(r.value)
    ensures r.Some? <==> exists k :: 0 <= k < |s| && UnitAfterDigit(s, unit, k)
  {
    var k := FindUnit(s, unit, 0);
    if k == |s| then None else Some(s[DigitRunStart(s, k)..k])
  }

  /** The digits written right before the first `unit` that follows a digit are what
      is read, whatever comes after: here the digits are `s[a..k]` and no earlier
      character starts `unit`. */
  lemma UnitDigitsAt(s: string, unit: string, a: nat, k: nat)
    requires |unit| > 0 && !IsDigit(unit[0])
    requires a < k && k + |unit| <= |s| && s[k..k + |unit|] == unit
    requires AllDigits(s[a..k]) && (a == 0 || !IsDigit(s[a - 1]))
    requires forall i :: 0 <= i < a ==> s[i] != unit[0]
    ensures UnitDigits(s, unit) == Some(s[a..k])
  {
    assert IsDigit(s[a..k][k - 1 - a]);
    assert UnitAfterDigit(s, unit, k);
    assert forall i :: 0 <= i < k ==> !UnitAfterDigit(s, unit, i) by {
      forall i | 0 <= i < k ensures !UnitAfterDigit(s, unit, i) {
        if a <= i {
          assert IsDigit(s[a..k][i - a]);
        }
        assert s[i] != unit[0];
        if i + |unit| <= |s| {
          assert s[i..i + |unit|][0] == s[i];
        }
      }
    }
    assert FindUnit(s, unit, 0) == k;
    DigitRunStartOf(s, a, k);
  }

  /** `float(...)` of the digits before `unit`, or NaN when there are none or the value
      is not text (`re.findall` raises and the handler gives NaN). */
  function UnitValue(raw: Value, unit: string): (r: Value)
    requires |unit| > 0
    ensures r.Float? ==> raw.Str? && IsDigits(r.text)
    ensures r.Float? || r.Null?
  {
    if raw.Str? then OptFloat(UnitDigits(raw.s, unit)) else Null
  }

  function OptFloat(o: Option<string>): Value {
    if o.Some? then Float(o.value) else Null
  }

  /** `clean_players_htwt(htwt_raw, return_value)`: the pair (height, weight) for 'all',
      one of them for 'ht' or 'wt', ValueError for anything else. */
  function CleanHtWt(raw: Value, returnValue: string): (r: Result<Value>)
    ensures r.Err? <==> returnValue != "all" && returnValue != "ht" && returnValue != "wt"
    ensures r.Err? ==> r.error == ValueError
    ensures returnValue == "ht" ==> r == Ok(UnitValue(raw, "cm"))
    ensures returnValue == "wt" ==> r == Ok(UnitValue(raw, "kg"))
  {
    var ht := UnitValue(raw, "cm");
    var wt := UnitValue(raw, "kg");
    if returnValue == "all" then Ok(List([ht, wt]))
    else if returnValue == "ht" then Ok(ht)
    else if returnValue == "wt" then Ok(wt)
    else Err(ValueError)
  }

  /** The page's height and weight text, "180cm, 75kg" followed by anything. */
  function HtWtText(h: string, w: string, rest: string): string {
    h + "cm, " + w + "kg" + rest
  }

  lemma HeightOfText(h: string, w: string, rest: string)
    requires IsDigits(h)
    ensures UnitDigits(HtWtText(h, w, rest), "cm") == Some(h)
  {
    var text := HtWtText(h, w, rest);
    assert text[0..|h|] == h;
    assert text[|h|..|h| + 2] == "cm";
    UnitDigitsAt(text, "cm", 0, |h|);
  }

  lemma WeightOfText(h: string, w: string, rest: string)
    requires IsDigits(h) && IsDigits(w)
    ensures UnitDigits(HtWtText(h, w, rest), "kg") == Some(w)
  {
    var text := HtWtText(h, w, rest);
    var p := h + "cm, ";
    var a := |h| + 4;
    var k := a + |w|;
    assert text[a..k] == w;
    assert text[k..k + 2] == "kg";
    assert text[a - 1] == ' ';
    assert forall i :: 0 <= i < a ==> text[i] == p[i];
    assert forall i :: 0 <= i < a ==> p[i] != 'k' by {
      forall i | 0 <= i < a ensures p[i] != 'k' {
        if i < |h| {
          assert p[i] == h[i];
          assert IsDigit(h[i]);
        } else {
          assert p[i] == "cm, "[i - |h|];
        }
      }
    }
    UnitDigitsAt(text, "kg", a, k);
  }

  /** The page's "180cm, 75kg (5-11, 165lb)" is read back as height 180 and weight 75. */
  lemma HeightWeightReadBack(height: nat, weight: nat, rest: string)
    ensures var text := HtWtText(NatToString(height), NatToString(weight), rest);
      CleanHtWt(Str(text), "all") == Ok(List([Float(NatToString(height)), Float(NatToString(weight))]))
    ensures DigitsValue(NatToString(height)) == height && DigitsValue(NatToString(weight)) == weight
  {
    HeightOfText(NatToString(height), NatToString(weight), rest);
    WeightOfText(NatToString(height), NatToString(weight), rest);
    NatToStringValue(height);
    NatToStringValue(weight);
  }

  // ---------------------------------------------------------------- clean_players

  /** The fields `scrape_player_data` parses from the page, in the order it stores them. */
  datatype PlayerInfo = PlayerInfo(
    fullName: Value, positions: Value, footed: Value, dateOfBirth: Value,
    birthCity: Value, nationality: Value, wages: Value, height: Value, photoUrl: Value)

  const RawPlayerKeys: seq<string> := ["player_id", "full_name", "positions", "footed", "date_of_birth",
    "birth_city", "nationality", "wages", "height", "photo_url"]

  /** The dict `scrape_player_data` returns: the id, then each parsed field. */
  function RawPlayerDict(playerId: string, info: PlayerInfo): (d: Dict<Value>)
    ensures Keys(d) == RawPlayerKeys
    ensures Get(d, "date_of_birth") == Some(info.dateOfBirth)
    ensures Get(d, "birth_city") == Some(info.birthCity)
    ensures Get(d, "height") == Some(info.height)
  {
    var vs := [Str(playerId), info.fullName, info.positions, info.footed, info.dateOfBirth,
      info.birthCity, info.nationality, info.wages, info.height, info.photoUrl];
    RawPlayerKeysDistinct();
    var d := FromPairs(RawPlayerKeys, vs);
    assert RawPlayerKeys[4] == "date_of_birth" && RawPlayerKeys[5] == "birth_city" && RawPlayerKeys[8] == "height";
    d
  }

  lemma RawPlayerKeysDistinct()
    ensures Lists.Distinct(RawPlayerKeys)
  {
  }

  /** The dict with keys `ks` holding `vs` in order. */
  function FromPairs(ks: seq<string>, vs: seq<Value>): (d: Dict<Value>)
    requires |ks| == |vs| && Lists.Distinct(ks)
    ensures Keys(d) == ks
    ensures forall i :: 0 <= i < |ks| ==> Get(d, ks[i]) == Some(vs[i])
  {
    var d: seq<(string, Value)> := seq(|ks|, i requires 0 <= i < |ks| => (ks[i], vs[i]));
    assert UniqueKeys(d);
    forall i | 0 <= i < |ks| ensures Get(d, ks[i]) == Some(vs[i]) {
      FindOfKey(d, i);
    }
    d
  }

  /** The new values `clean_players` stores: the date of birth, the birthplace parts
      (both from the raw 'birth_city') and height and weight (both from the raw
      'height'). */
  function CleanPlayersWith(d: Dict<Value>, parseDate: DateParser, leadingInOnly: bool): (r: Result<Dict<Value>>)
    ensures r.Ok? <==> Has(d, "date_of_birth") && Has(d, "birth_city") && Has(d, "height")
    ensures r.Err? ==> r.error == KeyError
    ensures r.Ok? ==>
      var place := BirthplaceParts(Get(d, "birth_city").value, leadingInOnly);
      var htwt := Get(d, "height").value;
      && Get(r.value, "date_of_birth") == Some(CleanDob(Get(d, "date_of_birth").value, parseDate))
      && Get(r.value, "birth_country") == Some(OptStr(place.country))
      && Get(r.value, "birth_city") == Some(OptStr(place.city))
      && Get(r.value, "weight") == Some(UnitValue(htwt, "kg"))
      && Get(r.value, "height") == Some(UnitValue(htwt, "cm"))
      && (forall k :: k !in PlayerFieldKeys ==> Get(r.value, k) == Get(d, k))
      && Keys(r.value) == Keys(d) + (if Has(d, "birth_country") then [] else ["birth_country"])
        + (if Has(d, "weight") then [] else ["weight"])
  {
    var dob :- Lookup(d, "date_of_birth");
    var place :- Lookup(d, "birth_city");
    var htwt :- Lookup(d, "height");
    var parts := BirthplaceParts(place, leadingInOnly);
    Ok(PlayerFields(d, CleanDob(dob, parseDate), OptStr(parts.country), OptStr(parts.city),
      UnitValue(htwt, "kg"), UnitValue(htwt, "cm")))
  }

  /** The five assignments of `clean_players`, in its order. */
  function PlayerFields(d: Dict<Value>, dob: Value, country: Value, city: Value, weight: Value, height: Value)
    : (r: Dict<Value>)
    requires Has(d, "date_of_birth") && Has(d, "birth_city") && Has(d, "height")
    ensures Get(r, "date_of_birth") == Some(dob) && Get(r, "birth_country") == Some(country)
    ensures Get(r, "birth_city") == Some(city) && Get(r, "weight") == Some(weight)
    ensures Get(r, "height") == Some(height)
    ensures forall k :: k !in PlayerFieldKeys ==> Get(r, k) == Get(d, k)
    ensures Keys(r) == Keys(d) + (if Has(d, "birth_country") then [] else ["birth_country"])
      + (if Has(d, "weight") then [] else ["weight"])
  {
    var d1 := SetItem(d, "date_of_birth", dob);
    var d2 := SetItem(d1, "birth_country", country);
    var d3 := SetItem(d2, "birth_city", city);
    var d4 := SetItem(d3, "weight", weight);
    var r := SetItem(d4, "height", height);
    PlayerFieldsGet(d, dob, country, city, weight, height);
    PlayerFieldsKeys(d, dob, country, city, weight, height);
    r
  }

  const PlayerFieldKeys: seq<string> := ["date_of_birth", "birth_country", "birth_city", "weight", "height"]

  lemma PlayerFieldsGet(d: Dict<Value>, dob: Value, country: Value, city: Value, weight: Value, height: Value)
    ensures var r := SetItem(SetItem(SetItem(SetItem(SetItem(d, "date_of_birth", dob),
      "birth_country", country), "birth_city", city), "weight", weight), "height", height);
      && Get(r, "date_of_birth") == Some(dob) && Get(r, "birth_country") == Some(country)
      && Get(r, "birth_city") == Some(city) && Get(r, "weight") == Some(weight)
      && Get(r, "height") == Some(height)
      && forall k :: k !in PlayerFieldKeys ==> Get(r, k) == Get(d, k)
  {
    var d1 := SetItem(d, "date_of_birth", dob);
    var d2 := SetItem(d1, "birth_country", country);
    var d3 := SetItem(d2, "birth_city", city);
    var d4 := SetItem(d3, "weight", weight);
    var r := SetItem(d4, "height", height);
    GetSetItem(d4, "height", height, "height");
    GetSetItem(d3, "weight", weight, "weight");
    GetSetItemKeeps(d4, "height", height, "weight", weight);
    PlayerFieldsThree(d, dob, country, city);
    GetSetItemKeeps(d3, "weight", weight, "date_of_birth", dob);
    GetSetItemKeeps(d3, "weight", weight, "birth_country", country);
    GetSetItemKeeps(d3, "weight", weight, "birth_city", city);
    GetSetItemKeeps(d4, "height", height, "date_of_birth", dob);
    GetSetItemKeeps(d4, "height", height, "birth_country", country);
    GetSetItemKeeps(d4, "height", height, "birth_city", city);
    PlayerFieldsOthers(d, dob, country, city, weight, height);
  }

  /** The first three assignments. */
  lemma PlayerFieldsThree(d: Dict<Value>, dob: Value, country: Value, city: Value)
    ensures var d3 := SetItem(SetItem(SetItem(d, "date_of_birth", dob), "birth_country", country), "birth_city", city);
      Get(d3, "date_of_birth") == Some(dob) && Get(d3, "birth_country") == Some(country) && Get(d3, "birth_city") == Some(city)
  {
    var d1 := SetItem(d, "date_of_birth", dob);
    var d2 := SetItem(d1, "birth_country", country);
    GetSetItem(d, "date_of_birth", dob, "date_of_birth");
    GetSetItemKeeps(d1, "birth_country", country, "date_of_birth", dob);
    GetSetItemKeeps(d2, "birth_city", city, "date_of_birth", dob);
    GetSetItem(d1, "birth_country", country, "birth_country");
    GetSetItemKeeps(d2, "birth_city", city, "birth_country", country);
    GetSetItem(d2, "birth_city", city, "birth_city");
  }

  /** Every other key keeps its value. */
  lemma PlayerFieldsOthers(d: Dict<Value>, dob: Value, country: Value, city: Value, weight: Value, height: Value)
    ensures var r := SetItem(SetItem(SetItem(SetItem(SetItem(d, "date_of_birth", dob),
      "birth_country", country), "birth_city", city), "weight", weight), "height", height);
      forall k :: k !in PlayerFieldKeys ==> Get(r, k) == Get(d, k)
  {
    var d1 := SetItem(d, "date_of_birth", dob);
    var d2 := SetItem(d1, "birth_country", country);
    var d3 := SetItem(d2, "birth_city", city);
    var d4 := SetItem(d3, "weight", weight);
    var r := SetItem(d4, "height", height);
    forall k | k !in PlayerFieldKeys ensures Get(r, k) == Get(d, k) {
      assert k != "height" && k != "weight" && k != "birth_city" && k != "birth_country" && k != "date_of_birth";
      GetSetItem(d4, "height", height, k);
      GetSetItem(d3, "weight", weight, k);
      GetSetItem(d2, "birth_city", city, k);
      GetSetItem(d1, "birth_country", country, k);
      GetSetItem(d, "date_of_birth", dob, k);
    }
  }

  lemma PlayerFieldsKeys(d: Dict<Value>, dob: Value, country: Value, city: Value, weight: Value, height: Value)
    requires Has(d, "date_of_birth") && Has(d, "birth_city") && Has(d, "height")
    ensures var r := SetItem(SetItem(SetItem(SetItem(SetItem(d, "date_of_birth", dob),
      "birth_country", country), "birth_city", city), "weight", weight), "height", height);
      Keys(r) == Keys(d) + (if Has(d, "birth_country") then [] else ["birth_country"])
        + (if Has(d, "weight") then [] else ["weight"])
  {
    var d1 := SetItem(d, "date_of_birth", dob);
    var d2 := SetItem(d1, "birth_country", country);
    var d3 := SetItem(d2, "birth_city", city);
    var d4 := SetItem(d3, "weight", weight);
    var r := SetItem(d4, "height", height);
    PlayerFieldsKeysFour(d, d4, dob, country, city, weight);
    PlayerFieldsHeight(d, d4, dob, country, city, weight);
  }

  /** The first four assignments add at most 'birth_country' and 'weight'. */
  lemma PlayerFieldsKeysFour(d: Dict<Value>, d4: Dict<Value>, dob: Value, country: Value, city: Value, weight: Value)
    requires Has(d, "date_of_birth") && Has(d, "birth_city")
    requires d4 == SetItem(SetItem(SetItem(SetItem(d, "date_of_birth", dob), "birth_country", country), "birth_city", city), "weight", weight)
    ensures Keys(d4) == Keys(d) + (if Has(d, "birth_country") then [] else ["birth_country"])
        + (if Has(d, "weight") then [] else ["weight"])
  {
    var d3 := SetItem(SetItem(SetItem(d, "date_of_birth", dob), "birth_country", country), "birth_city", city);
    PlayerFieldsKeysThree(d, d3, dob, country, city);
    PlayerFieldsWeight(d, d3, dob, country, city);
  }

  /** The first three assignments add at most 'birth_country'. */
  lemma PlayerFieldsKeysThree(d: Dict<Value>, d3: Dict<Value>, dob: Value, country: Value, city: Value)
    requires Has(d, "date_of_birth") && Has(d, "birth_city")
    requires d3 == SetItem(SetItem(SetItem(d, "date_of_birth", dob), "birth_country", country), "birth_city", city)
    ensures Keys(d3) == Keys(d) + (if Has(d, "birth_country") then [] else ["birth_country"])
  {
    var d1 := SetItem(d, "date_of_birth", dob);
    HasSetItem(d, "date_of_birth", dob, "birth_country");
    HasSetItem(d1, "birth_country", country, "birth_city");
    HasSetItem(d, "date_of_birth", dob, "birth_city");
  }

  lemma PlayerFieldsWeight(d: Dict<Value>, d3: Dict<Value>, dob: Value, country: Value, city: Value)
    requires d3 == SetItem(SetItem(SetItem(d, "date_of_birth", dob), "birth_country", country), "birth_city", city)
    ensures Has(d3, "weight") <==> Has(d, "weight")
  {
    var d1 := SetItem(d, "date_of_birth", dob);
    HasSetItem(SetItem(d1, "birth_country", country), "birth_city", city, "weight");
    HasSetItem(d1, "birth_country", country, "weight");
    HasSetItem(d, "date_of_birth", dob, "weight");
  }

  lemma PlayerFieldsHeight(d: Dict<Value>, d4: Dict<Value>, dob: Value, country: Value, city: Value, weight: Value)
    requires Has(d, "height")
    requires d4 == SetItem(SetItem(SetItem(SetItem(d, "date_of_birth", dob), "birth_country", country), "birth_city", city), "weight", weight)
    ensures Has(d4, "height")
  {
    var d1 := SetItem(d, "date_of_birth", dob);
    var d2 := SetItem(d1, "birth_country", country);
    var d3 := SetItem(d2, "birth_city", city);
    HasSetItem(d3, "weight", weight, "height");
    HasSetItem(d2, "birth_city", city, "height");
    HasSetItem(d1, "birth_country", country, "height");
    HasSetItem(d, "date_of_birth", dob, "height");
  }

  /** `clean_players` as written. */
  function CleanPlayers(d: Dict<Value>, parseDate: DateParser): Result<Dict<Value>> {
    CleanPlayersWith(d, parseDate, false)
  }

  /** `clean_players` with the birthplace cleaned as intended. */
  function CleanPlayersFixed(d: Dict<Value>, parseDate: DateParser): Result<Dict<Value>> {
    CleanPlayersWith(d, parseDate, true)
  }

  /** `clean_players` overwriting the dict's fields one by one, reading 'birth_city'
      and 'height' again after the new country and weight are stored. */
  method CleanPlayersSteps(d: Dict<Value>, parseDate: DateParser, leadingInOnly: bool) returns (r: Result<Dict<Value>>)
    ensures r == CleanPlayersWith(d, parseDate, leadingInOnly)
  {
    var dob :- Lookup(d, "date_of_birth");
    var data := SetItem(d, "date_of_birth", CleanDob(dob, parseDate));
    GetSetItem(d, "date_of_birth", CleanDob(dob, parseDate), "birth_city");
    var place :- Lookup(data, "birth_city");
    assert Get(d, "birth_city") == Some(place);
    var parts := BirthplaceParts(place, leadingInOnly);
    var data2 := SetItem(data, "birth_country", OptStr(parts.country));
    GetSetItem(data, "birth_country", OptStr(parts.country), "birth_city");
    var place2 := Lookup(data2, "birth_city").value;
    assert place2 == place;
    var data3 := SetItem(data2, "birth_city", OptStr(parts.city));
    GetSetItem(data2, "birth_city", OptStr(parts.city), "height");
    GetSetItem(data, "birth_country", OptStr(parts.country), "height");
    GetSetItem(d, "date_of_birth", CleanDob(dob, parseDate), "height");
    var htwt :- Lookup(data3, "height");
    assert Get(d, "height") == Some(htwt);
    var data4 := SetItem(data3, "weight", UnitValue(htwt, "kg"));
    GetSetItem(data3, "weight", UnitValue(htwt, "kg"), "height");
    var htwt2 := Lookup(data4, "height").value;
    assert htwt2 == htwt;
    data := SetItem(data4, "height", UnitValue(htwt, "cm"));
    CleanPlayersWithOk(d, parseDate, leadingInOnly);
    return Ok(data);
  }

  /** With its three keys present, `clean_players` is the five assignments. */
  lemma CleanPlayersWithOk(d: Dict<Value>, parseDate: DateParser, leadingInOnly: bool)
    requires Has(d, "date_of_birth") && Has(d, "birth_city") && Has(d, "height")
    ensures var parts := BirthplaceParts(Get(d, "birth_city").value, leadingInOnly);
      var htwt := Get(d, "height").value;
      CleanPlayersWith(d, parseDate, leadingInOnly)
        == Ok(PlayerFields(d, CleanDob(Get(d, "date_of_birth").value, parseDate),
          OptStr(parts.country), OptStr(parts.city), UnitValue(htwt, "kg"), UnitValue(htwt, "cm")))
  {
  }

  /** `scrape_clean_data`: the parsed page (None when the fetch failed, and then
      `clean_players` subscripts None and raises TypeError) cleaned as written. */
  function ScrapeCleanData(playerId: string, info: Option<PlayerInfo>, parseDate: DateParser): (r: Result<Dict<Value>>)
    ensures info.None? <==> r.Err?
    ensures r.Err? ==> r.error == TypeError
  {
    if info.None? then Err(TypeError)
    else CleanPlayers(RawPlayerDict(playerId, info.value), parseDate)
  }

  /** A scraped player is cleaned into the ten parsed keys followed by 'birth_country'
      and 'weight', with the birthplace, height and weight taken from their raw texts. */
  lemma ScrapeCleanDataShape(playerId: string, info: PlayerInfo, parseDate: DateParser)
    ensures ScrapeCleanData(playerId, Some(info), parseDate).Ok?
    ensures var r := ScrapeCleanData(playerId, Some(info), parseDate).value;
      && Keys(r) == RawPlayerKeys + ["birth_country", "weight"]
      && Get(r, "date_of_birth") == Some(CleanDob(info.dateOfBirth, parseDate))
      && Get(r, "birth_country") == Some(OptStr(BirthplaceParts(info.birthCity, false).country))
      && Get(r, "birth_city") == Some(OptStr(BirthplaceParts(info.birthCity, false).city))
      && Get(r, "height") == Some(UnitValue(info.height, "cm"))
      && Get(r, "weight") == Some(UnitValue(info.height, "kg"))
  {
    var d := RawPlayerDict(playerId, info);
    CleanedRawKeys(d, parseDate);
  }

  /** A dict with the ten parsed keys gains 'birth_country' and 'weight' at its end. */
  lemma CleanedRawKeys(d: Dict<Value>, parseDate: DateParser)
    requires Keys(d) == RawPlayerKeys
    ensures CleanPlayersWith(d, parseDate, false).Ok?
    ensures Keys(CleanPlayersWith(d, parseDate, false).value) == RawPlayerKeys + ["birth_country", "weight"]
  {
    assert RawPlayerKeys[4] == "date_of_birth" && RawPlayerKeys[5] == "birth_city" && RawPlayerKeys[8] == "height";
    assert "birth_country" !in RawPlayerKeys && "weight" !in RawPlayerKeys;
    assert RawPlayerKeys + ["birth_country"] + ["weight"] == RawPlayerKeys + ["birth_country", "weight"];
  }
}
