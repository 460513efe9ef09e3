/** Location names typed by the user and the entries the geocoding service
    returns (src/geo.rs; src/api/geocoding.rs declares the same `LocationInfo`
    with the same `to_string`, `eq` and `ne`). */
module Geo {
  import opened Wrappers
  import opened Coords

  /*********************************************************************
   *                 Splitting on commas and joining back              *
   *********************************************************************/

  /** `str::split(',')`: the pieces between commas, empty ones included;
      there is always at least one. */
  function Split(s: string): (parts: seq<string>)
    ensures |parts| >= 1
    ensures |parts| == CommaCount(s) + 1
    decreases |s|
  {
    if s == [] then [""]
    else
      var rest := Split(s[1..]);
      if s[0] == ',' then [""] + rest
      else [[s[0]] + rest[0]] + rest[1..]
  }

  /** The number of commas in `s`. */
  function CommaCount(s: string): nat
    decreases |s|
  {
    if s == [] then 0 else (if s[0] == ',' then 1 else 0) + CommaCount(s[1..])
  }

  /** The pieces put back together with commas between them. */
  function Join(parts: seq<string>): string
    requires |parts| >= 1
    decreases |parts|
  {
    if |parts| == 1 then parts[0] else parts[0] + "," + Join(parts[1..])
  }

  predicate NoComma(s: string) {
    ',' !in s
  }

  /** Splitting loses nothing: joining the pieces gives the input back. */
  lemma {:induction false} JoinSplit(s: string)
    ensures Join(Split(s)) == s
    decreases |s|
  {
    if s != [] {
      var rest := Split(s[1..]);
      JoinSplit(s[1..]);
      if s[0] == ',' {
        assert s == "," + s[1..];
      } else {
        var parts := Split(s);
        assert parts[1..] == rest[1..];
        if |rest| == 1 {
          assert Join(parts) == [s[0]] + rest[0];
        } else {
          assert Join(parts) == [s[0]] + rest[0] + "," + Join(rest[1..]);
          assert Join(rest) == rest[0] + "," + Join(rest[1..]);
        }
        assert s == [s[0]] + s[1..];
      }
    }
  }

  /** A comma-free prefix is glued onto the first piece of what follows it. */
  lemma {:induction false} SplitPrefix(a: string, rest: string)
    requires NoComma(a)
    ensures Split(a + rest) == [a + Split(rest)[0]] + Split(rest)[1..]
    decreases |a|
  {
    var S := Split(rest);
    if a == [] {
      assert a + rest == rest;
      assert a + S[0] == S[0];
      assert S == [S[0]] + S[1..];
    } else {
      assert (a + rest)[1..] == a[1..] + rest;
      assert (a + rest)[0] == a[0] && a[0] in a;
      assert NoComma(a[1..]) by {
        forall i | 0 <= i < |a[1..]| ensures a[1..][i] != ',' {
          assert a[1..][i] == a[i + 1] && a[i + 1] in a;
        }
      }
      SplitPrefix(a[1..], rest);
      assert [a[0]] + (a[1..] + S[0]) == a + S[0];
    }
  }

  /** Joining comma-free pieces and splitting again gives the same pieces. */
  lemma {:induction false} SplitJoin(parts: seq<string>)
    requires |parts| >= 1
    requires forall i :: 0 <= i < |parts| ==> NoComma(parts[i])
    ensures Split(Join(parts)) == parts
    decreases |parts|
  {
    if |parts| == 1 {
      var p := parts[0];
      SplitPrefix(p, "");
      assert p + "" == p;
      assert Split("") == [""];
      assert Split(p) == [p + ""] + [""][1..];
      assert [p] == parts;
    } else {
      var tail := Join(parts[1..]);
      assert forall i :: 0 <= i < |parts[1..]| ==> parts[1..][i] == parts[i + 1];
      SplitJoin(parts[1..]);
      SplitPrefix(parts[0], "," + tail);
      assert Join(parts) == parts[0] + ("," + tail);
      assert ("," + tail)[0] == ',' && ("," + tail)[1..] == tail;
      assert Split("," + tail) == [""] + parts[1..];
      assert parts[0] + "" == parts[0];
      assert parts == [parts[0]] + parts[1..];
    }
  }

  /*********************************************************************
   *                           LocationName                            *
   *********************************************************************/

  /** `LocationName`: what the user typed, as city, state and country. */
  datatype LocationName = LocationName(city: string, state: Option<string>, country: Option<string>)

  /** `LocationName::new`: a city with neither state nor country. */
  function New(city: string): (n: LocationName)
    ensures n.city == city && n.state.None? && n.country.None?
  {
    LocationName(city, None, None)
  }

  /** `set_state`: sets the state and keeps everything else. */
  function SetState(n: LocationName, state: string): (r: LocationName)
    ensures r.state == Some(state) && r.city == n.city && r.country == n.country
  {
    n.(state := Some(state))
  }

  /** `set_country`: sets the country and keeps everything else. */
  function SetCountry(n: LocationName, country: string): (r: LocationName)
    ensures r.country == Some(country) && r.city == n.city && r.state == n.state
  {
    n.(country := Some(country))
  }

  /** `LocationName::from_str`: one, two or three comma-separated pieces are
      city, state and country, untrimmed and possibly empty; more is `None`. */
  function FromStr(name: string): (r: Option<LocationName>)
    ensures r.Some? <==> CommaCount(name) <= 2
    ensures r.Some? && r.value.country.Some? ==> r.value.state.Some?
  {
    var chunks := Split(name);
    if |chunks| == 1 then Some(LocationName(chunks[0], None, None))
    else if |chunks| == 2 then Some(LocationName(chunks[0], Some(chunks[1]), None))
    else if |chunks| == 3 then Some(LocationName(chunks[0], Some(chunks[1]), Some(chunks[2])))
    else None
  }

  /** `Display for LocationName`: the city, then `,state` and `,country` when
      present; a well-formed name prints with one comma fewer than it has pieces. */
  function Show(n: LocationName): (s: string)
    ensures |s| >= |n.city| && s[..|n.city|] == n.city
    ensures WellFormed(n) ==> CommaCount(s) == |Pieces(n)| - 1
  {
    var s := n.city
      + (if n.state.Some? then "," + n.state.value else "")
      + (if n.country.Some? then "," + n.country.value else "");
    ShownCommas(n, s);
    s
  }

  lemma ShownCommas(n: LocationName, s: string)
    requires s == n.city
      + (if n.state.Some? then "," + n.state.value else "")
      + (if n.country.Some? then "," + n.country.value else "")
    ensures |s| >= |n.city| && s[..|n.city|] == n.city
    ensures WellFormed(n) ==> CommaCount(s) == |Pieces(n)| - 1
  {
    var st := if n.state.Some? then "," + n.state.value else "";
    var co := if n.country.Some? then "," + n.country.value else "";
    CommaCountConcat(n.city, st);
    CommaCountConcat(n.city + st, co);
    if n.state.Some? { CommaCountConcat(",", n.state.value); }
    if n.country.Some? { CommaCountConcat(",", n.country.value); }
    if WellFormed(n) {
      NoCommaCount(n.city);
      if n.state.Some? { NoCommaCount(n.state.value); }
      if n.country.Some? { NoCommaCount(n.country.value); }
    }
  }

  /** Commas in a concatenation add up. */
  lemma {:induction false} CommaCountConcat(a: string, b: string)
    ensures CommaCount(a + b) == CommaCount(a) + CommaCount(b)
    decreases |a|
  {
    if a != [] {
      assert (a + b)[1..] == a[1..] + b;
      CommaCountConcat(a[1..], b);
    } else {
      assert a + b == b;
    }
  }

  /** A string without commas counts none. */
  lemma {:induction false} NoCommaCount(s: string)
    requires NoComma(s)
    ensures CommaCount(s) == 0
    decreases |s|
  {
    if s != [] {
      assert s[0] in s;
      assert NoComma(s[1..]) by {
        forall i | 0 <= i < |s[1..]| ensures s[1..][i] != ',' {
          assert s[1..][i] == s[i + 1] && s[i + 1] in s;
        }
      }
      NoCommaCount(s[1..]);
    }
  }

  /** The pieces `Show` joins with commas. */
  function Pieces(n: LocationName): seq<string> {
    [n.city]
      + (if n.state.Some? then [n.state.value] else [])
      + (if n.country.Some? then [n.country.value] else [])
  }

  lemma ShowIsJoin(n: LocationName)
    requires n.country.Some? ==> n.state.Some?
    ensures |Pieces(n)| >= 1 && Show(n) == Join(Pieces(n))
  {
    var p := Pieces(n);
    if n.country.Some? {
      assert p == [n.city, n.state.value, n.country.value];
      assert p[1..][1..] == [n.country.value];
      assert Join(p[1..]) == n.state.value + "," + n.country.value;
      assert Join(p) == n.city + "," + (n.state.value + "," + n.country.value);
    } else if n.state.Some? {
      assert p == [n.city, n.state.value];
      assert p[1..] == [n.state.value];
    } else {
      assert p == [n.city];
    }
  }

  /** The names `Show` can print and `from_str` read back: no field holds a
      comma, and a country comes with a state. */
  predicate WellFormed(n: LocationName) {
    && NoComma(n.city)
    && (n.state.Some? ==> NoComma(n.state.value))
    && (n.country.Some? ==> NoComma(n.country.value) && n.state.Some?)
  }

  /** Whatever `from_str` accepts, `Display` prints back unchanged. */
  lemma FromStrThenShow(s: string)
    requires FromStr(s).Some?
    ensures Show(FromStr(s).value) == s
  {
    var chunks := Split(s);
    JoinSplit(s);
    ShowIsJoin(FromStr(s).value);
    assert Pieces(FromStr(s).value) == chunks;
  }

  /** A well-formed name survives printing and parsing again. */
  lemma ShowThenFromStr(n: LocationName)
    requires WellFormed(n)
    ensures FromStr(Show(n)) == Some(n)
  {
    ShowIsJoin(n);
    SplitJoin(Pieces(n));
  }

  /** `from_str` builds the same value as the builder chain the program uses. */
  lemma FromStrMatchesBuilders(city: string, state: string, country: string)
    requires NoComma(city) && NoComma(state) && NoComma(country)
    ensures FromStr(city) == Some(New(city))
    ensures FromStr(city + "," + state) == Some(SetState(New(city), state))
    ensures FromStr(city + "," + state + "," + country) == Some(SetCountry(SetState(New(city), state), country))
  {
    ShowThenFromStr(New(city));
    assert Show(New(city)) == city;
    ShowThenFromStr(SetState(New(city), state));
    assert Show(SetState(New(city), state)) == city + "," + state;
    ShowThenFromStr(SetCountry(SetState(New(city), state), country));
    assert Show(SetCountry(SetState(New(city), state), country)) == city + "," + state + "," + country;
  }

  /** Empty pieces are kept: an empty middle field is an empty state, and the
      empty string is an empty city. */
  lemma EmptyPiecesKept()
    ensures FromStr("Dzerzhinsk,,Russia") == Some(LocationName("Dzerzhinsk", Some(""), Some("Russia")))
    ensures FromStr("") == Some(New(""))
    ensures FromStr("a,b,c,d") == None
  {
    ShowThenFromStr(LocationName("Dzerzhinsk", Some(""), Some("Russia")));
    assert Show(LocationName("Dzerzhinsk", Some(""), Some("Russia"))) == "Dzerzhinsk,,Russia";
    ShowThenFromStr(New(""));
    assert CommaCount("a,b,c,d") == 3;
  }

  /*********************************************************************
   *                           LocationInfo                            *
   *********************************************************************/

  /** `LocalNames`: the optional names of a place in four languages. */
  datatype LocalNames = LocalNames(bg: Option<string>, de: Option<string>, en: Option<string>, ru: Option<string>)

  /** `LocationInfo`: one entry of a geocoding answer. */
  datatype LocationInfo = LocationInfo(
    name: string,
    localNames: Option<LocalNames>,
    lat: F32,
    lon: F32,
    country: string,
    state: Option<string>)

  /** `LocationInfo::to_string`: `name (state, country)`, or `name (country)`
      when there is no state. */
  function Label(l: LocationInfo): (s: string)
    ensures |s| >= |l.name| + |l.country| + 3
    ensures s[..|l.name| + 2] == l.name + " ("
    ensures s[|s| - |l.country| - 1..] == l.country + ")"
  {
    if l.state.Some? then l.name + " (" + l.state.value + ", " + l.country + ")"
    else l.name + " (" + l.country + ")"
  }

  /** `PartialEq::eq`: the same name, country and state; coordinates and local
      names do not take part. */
  predicate Eq(a: LocationInfo, b: LocationInfo)
    ensures Eq(a, b) ==> Label(a) == Label(b)
  {
    a.name == b.name && a.country == b.country && a.state == b.state
  }

  /** `PartialEq::ne`, written out on its own in the source: exactly the
      negation of `eq`. */
  predicate Ne(a: LocationInfo, b: LocationInfo)
    ensures Ne(a, b) <==> !Eq(a, b)
  {
    a.name != b.name || a.country != b.country || a.state != b.state
  }

  /** `eq` is an equivalence relation, as `impl Eq` requires. */
  lemma EqIsEquivalence(a: LocationInfo, b: LocationInfo, c: LocationInfo)
    ensures Eq(a, a)
    ensures Eq(a, b) ==> Eq(b, a)
    ensures Eq(a, b) && Eq(b, c) ==> Eq(a, c)
  {
  }

  /** Equality and the label ignore coordinates and local names. */
  lemma EqIgnoresCoordinates(a: LocationInfo, lat: F32, lon: F32, names: Option<LocalNames>)
    ensures Eq(a, a.(lat := lat, lon := lon, localNames := names))
    ensures Label(a.(lat := lat, lon := lon, localNames := names)) == Label(a)
  {
  }

  /** The label does not identify an entry: a state and a country containing
      `", "` print alike. */
  lemma DistinctEntriesShareLabel()
    ensures var a := LocationInfo("A", None, Zero, Zero, "C", Some("B"));
            var b := LocationInfo("A", None, Zero, Zero, "B, C", None);
            !Eq(a, b) && Label(a) == Label(b)
  {
  }
}
