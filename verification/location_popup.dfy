/** The location picker of src/Components/LocationPopup.tsx: a search box
    that filters a fixed list of cities, a grid of those cities, and a
    "use current location" button backed by the platform's position service
    and a reverse-geocoding lookup (both outside the model: their outcomes
    are parameters). */
module Location {
  import opened Common

  /** The preset cities, in display order. */
  const PopularCities: seq<string> := [
    "Mumbai", "Delhi", "Bangalore", "Hyderabad", "Chennai",
    "Kolkata", "Pune", "Ahmedabad", "Jaipur", "Surat"
  ]

  // ---------------------------------------------------------------------
  // Case-insensitive substring matching
  // ---------------------------------------------------------------------

  /** `toLowerCase` on one character, for the ASCII letters. */
  function LowerChar(c: char): char
  {
    if 'A' <= c <= 'Z' then (c as int + ('a' as int - 'A' as int)) as char else c
  }

  /** `toLowerCase` on a string, character by character. */
  function Lower(s: string): (r: string)
    ensures |r| == |s|
    ensures forall i :: 0 <= i < |s| ==> r[i] == LowerChar(s[i])
  {
    seq(|s|, i requires 0 <= i < |s| => LowerChar(s[i]))
  }

  lemma LowerIdempotent(s: string)
    ensures Lower(Lower(s)) == Lower(s)
  {
    assert forall i :: 0 <= i < |s| ==> LowerChar(LowerChar(s[i])) == LowerChar(s[i]);
  }

  /** `prefix` is where `s` starts. */
  predicate StartsWith(s: string, prefix: string)
  {
    |prefix| <= |s| && s[..|prefix|] == prefix
  }

  /** `s.includes(sub)`: `sub` starts at some position of `s`. */
  predicate Includes(s: string, sub: string)
    decreases |s|
  {
    StartsWith(s, sub) || (s != [] && Includes(s[1..], sub))
  }

  /** `sub` occurs in `s` starting at position `i`. */
  predicate OccursAt(s: string, sub: string, i: int)
  {
    0 <= i && i + |sub| <= |s| && s[i..i + |sub|] == sub
  }

  /** `Includes` agrees with the definition by position. */
  lemma {:induction false} IncludesAt(s: string, sub: string)
    ensures Includes(s, sub) <==> exists i :: OccursAt(s, sub, i)
    decreases |s|
  {
    if StartsWith(s, sub) {
      assert OccursAt(s, sub, 0);
    } else if s == [] {
      assert forall i :: !OccursAt(s, sub, i);
    } else {
      IncludesAt(s[1..], sub);
      if Includes(s[1..], sub) {
        var i :| OccursAt(s[1..], sub, i);
        assert s[1..][i..i + |sub|] == s[i + 1..i + 1 + |sub|];
        assert OccursAt(s, sub, i + 1);
      }
      if exists i :: OccursAt(s, sub, i) {
        var i :| OccursAt(s, sub, i);
        assert i != 0;
        assert s[1..][i - 1..i - 1 + |sub|] == s[i..i + |sub|];
        assert OccursAt(s[1..], sub, i - 1);
      }
    }
  }

  /** The filter of `handleSearch`: the city's lower-cased name contains the
      lower-cased query. */
  predicate Matches(city: string, query: string)
  {
    Includes(Lower(city), Lower(query))
  }

  // ---------------------------------------------------------------------
  // Suggestions
  // ---------------------------------------------------------------------

  /** `cities.filter(city => Matches(city, query))`. */
  function MatchingCities(cities: seq<string>, query: string): (r: seq<string>)
    ensures |r| <= |cities|
    ensures forall c :: c in r ==> c in cities && Matches(c, query)
    decreases |cities|
  {
    if cities == [] then []
    else if Matches(cities[0], query) then [cities[0]] + MatchingCities(cities[1..], query)
    else MatchingCities(cities[1..], query)
  }

  /** `r` is `s` with some elements left out and the rest in their order. */
  predicate IsSubsequence<T(==)>(r: seq<T>, s: seq<T>)
    decreases |s|
  {
    r == [] || (s != [] && ((r[0] == s[0] && IsSubsequence(r[1..], s[1..])) || IsSubsequence(r, s[1..])))
  }

  /** Every city that matches is kept: together with the ensures of
      `MatchingCities`, the result holds exactly the matching cities. */
  lemma {:induction false} MatchingCitiesComplete(cities: seq<string>, query: string, c: string)
    requires c in cities && Matches(c, query)
    ensures c in MatchingCities(cities, query)
    decreases |cities|
  {
    if cities[0] != c {
      MatchingCitiesComplete(cities[1..], query, c);
    }
  }

  /** The kept cities keep the order they have in the list. */
  lemma {:induction false} MatchingCitiesInOrder(cities: seq<string>, query: string)
    ensures IsSubsequence(MatchingCities(cities, query), cities)
    decreases |cities|
  {
    if cities != [] {
      MatchingCitiesInOrder(cities[1..], query);
      var r := MatchingCities(cities, query);
      if Matches(cities[0], query) {
        assert r[0] == cities[0] && r[1..] == MatchingCities(cities[1..], query);
      }
    }
  }

  /** Filtering a concatenation filters each part: the result is decided city
      by city, in list order. */
  lemma {:induction false} MatchingCitiesAppend(a: seq<string>, b: seq<string>, query: string)
    ensures MatchingCities(a + b, query) == MatchingCities(a, query) + MatchingCities(b, query)
    decreases |a|
  {
    if a == [] {
      assert a + b == b;
    } else {
      assert (a + b)[0] == a[0];
      assert (a + b)[1..] == a[1..] + b;
      MatchingCitiesAppend(a[1..], b, query);
    }
  }

  /** Queries that lower-case alike select the same cities. */
  lemma {:induction false} MatchingCitiesIgnoreCase(cities: seq<string>, q1: string, q2: string)
    requires Lower(q1) == Lower(q2)
    ensures MatchingCities(cities, q1) == MatchingCities(cities, q2)
    decreases |cities|
  {
    if cities != [] {
      MatchingCitiesIgnoreCase(cities[1..], q1, q2);
    }
  }

  /** In particular a query and its lower-cased form select the same cities. */
  lemma MatchingCitiesLowerQuery(cities: seq<string>, query: string)
    ensures MatchingCities(cities, query) == MatchingCities(cities, Lower(query))
  {
    LowerIdempotent(query);
    MatchingCitiesIgnoreCase(cities, query, Lower(query));
  }

  /** One entry of the AutoComplete's option list (`{ value, label }`; the
      label is `caption` here). */
  datatype SearchOption = SearchOption(value: string, caption: string)

  /** `.map(city => ({ value: city, label: city }))`. */
  function ToOptions(cities: seq<string>): (r: seq<SearchOption>)
    ensures |r| == |cities|
    ensures forall i :: 0 <= i < |cities| ==> r[i].value == cities[i] && r[i].caption == cities[i]
  {
    seq(|cities|, i requires 0 <= i < |cities| => SearchOption(cities[i], cities[i]))
  }

  /** Every option names a preset city, as both value and label. */
  predicate PresetOptions(options: seq<SearchOption>)
  {
    forall o :: o in options ==> o.value == o.caption && o.value in PopularCities
  }

  /** The suggestions for a non-empty query are the matching preset cities,
      each as value and label: there are at most ten of them, each is a preset
      city, and together with `SuggestionsComplete` they are exactly the
      matching ones. */
  lemma SuggestionsArePresets(query: string)
    ensures |ToOptions(MatchingCities(PopularCities, query))| <= 10
    ensures PresetOptions(ToOptions(MatchingCities(PopularCities, query)))
    ensures forall o :: o in ToOptions(MatchingCities(PopularCities, query)) ==> Matches(o.value, query)
  {
    var cities := MatchingCities(PopularCities, query);
    forall o | o in ToOptions(cities)
      ensures o.value == o.caption && o.value in cities
    {
      var i :| 0 <= i < |cities| && ToOptions(cities)[i] == o;
    }
  }

  /** Every matching preset city is offered. */
  lemma SuggestionsComplete(query: string, city: string)
    requires city in PopularCities && Matches(city, query)
    ensures SearchOption(city, city) in ToOptions(MatchingCities(PopularCities, query))
  {
    MatchingCitiesComplete(PopularCities, query, city);
    var cities := MatchingCities(PopularCities, query);
    var i :| 0 <= i < |cities| && cities[i] == city;
    assert ToOptions(cities)[i] == SearchOption(city, city);
  }

  /** A worked query: matching ignores case. */
  lemma SuggestionExampleDelhi()
    ensures SearchOption("Delhi", "Delhi") in ToOptions(MatchingCities(PopularCities, "DEL"))
  {
    var q, c := "DEL", "Delhi";
    assert Lower(q) == "del" by {
      assert |Lower(q)| == 3 && Lower(q)[0] == 'd' && Lower(q)[1] == 'e' && Lower(q)[2] == 'l';
    }
    assert Lower(c)[..3] == "del" by {
      assert Lower(c)[0] == 'd' && Lower(c)[1] == 'e' && Lower(c)[2] == 'l';
    }
    assert Includes(Lower(c), Lower(q));
    assert c == PopularCities[1];
    SuggestionsComplete(q, c);
  }

  /** A worked query: the query may sit anywhere in the name. */
  lemma SuggestionExampleBad()
    ensures SearchOption("Hyderabad", "Hyderabad") in ToOptions(MatchingCities(PopularCities, "bad"))
  {
    var q, c := "bad", "Hyderabad";
    assert Lower(q) == q by {
      assert Lower(q)[0] == 'b' && Lower(q)[1] == 'a' && Lower(q)[2] == 'd';
    }
    assert OccursAt(Lower(c), q, 6) by {
      assert Lower(c)[6] == 'b' && Lower(c)[7] == 'a' && Lower(c)[8] == 'd';
      assert Lower(c)[6..9] == q;
    }
    IncludesAt(Lower(c), q);
    assert c == PopularCities[3];
    SuggestionsComplete(q, c);
  }

  /** Every city contains the empty query, so the filter alone would offer
      the whole list for it: the emptiness test in `handleSearch` is what
      makes an empty query offer nothing. */
  lemma {:induction false} MatchingCitiesEmptyQuery(cities: seq<string>)
    ensures MatchingCities(cities, "") == cities
    decreases |cities|
  {
    if cities != [] {
      assert StartsWith(Lower(cities[0]), Lower(""));
      MatchingCitiesEmptyQuery(cities[1..]);
    }
  }

  // ---------------------------------------------------------------------
  // Reverse geocoding and the position service
  // ---------------------------------------------------------------------

  /** The `address` object of the lookup's JSON: each field may be absent. */
  datatype Address = Address(city: Option<string>, town: Option<string>,
                             village: Option<string>, district: Option<string>)

  const FallbackPlace := "Your Location"

  /** The address fields in the order they are consulted. */
  function PlaceFields(a: Address): seq<Option<string>>
  {
    [a.city, a.town, a.village, a.district]
  }

  /** The first truthy value of `fields`, else `fallback`: a chain of `||`. */
  function FirstTruthy(fields: seq<Option<string>>, fallback: string): (r: string)
    ensures forall k :: (0 <= k < |fields| && Truthy(fields[k])
                         && forall j :: 0 <= j < k ==> !Truthy(fields[j])) ==> r == fields[k].value
    ensures (forall j :: 0 <= j < |fields| ==> !Truthy(fields[j])) ==> r == fallback
    ensures r == fallback || exists k :: 0 <= k < |fields| && Truthy(fields[k]) && r == fields[k].value
    decreases |fields|
  {
    if fields == [] then fallback
    else if Truthy(fields[0]) then fields[0].value
    else FirstTruthy(fields[1..], fallback)
  }

  /** The place name of `detectLocation`: the first truthy field among city,
      town, village and district (an empty string falls through), else the
      fallback label. Never empty. */
  function PlaceName(a: Address): (r: string)
    ensures r != ""
  {
    OrElse(a.city, OrElse(a.town, OrElse(a.village, OrElse(a.district, FallbackPlace))))
  }

  /** The `||` chain of `PlaceName` picks the first truthy field. */
  lemma PlaceNameIsFirstTruthy(a: Address)
    ensures PlaceName(a) == FirstTruthy(PlaceFields(a), FallbackPlace)
  {
    var d: seq<Option<string>> := [a.district];
    var vd := [a.village] + d;
    var tvd := [a.town] + vd;
    var ctvd := [a.city] + tvd;
    assert d[1..] == [] && vd[1..] == d && tvd[1..] == vd && ctvd[1..] == tvd;
    assert FirstTruthy(d, FallbackPlace) == OrElse(a.district, FallbackPlace);
    assert FirstTruthy(vd, FallbackPlace) == OrElse(a.village, FirstTruthy(d, FallbackPlace));
    assert FirstTruthy(tvd, FallbackPlace) == OrElse(a.town, FirstTruthy(vd, FallbackPlace));
    assert FirstTruthy(ctvd, FallbackPlace) == OrElse(a.city, FirstTruthy(tvd, FallbackPlace));
    assert PlaceFields(a) == ctvd;
  }

  /** The worked cases: a town stands in for a missing or empty city, and an
      empty address yields the fallback label. */
  lemma PlaceNameExamples()
    ensures PlaceName(Address(None, Some("Foo"), None, None)) == "Foo"
    ensures PlaceName(Address(Some(""), Some("Foo"), Some("Bar"), None)) == "Foo"
    ensures PlaceName(Address(None, None, None, None)) == FallbackPlace
  {
  }

  const PermissionDeniedMessage := "Location permission denied. Please enable location access."
  const PositionUnavailableMessage := "Location unavailable. Please try again."
  const TimeoutMessage := "Request timeout. Please try again."
  const GenericPositionMessage := "Failed to get your location. Please try again."
  const UnsupportedMessage := "Geolocation not supported by your browser"
  const LookupUnavailableMessage := "Location service temporarily unavailable. Please try again."

  /** The toast for a position-service error code: 1 permission denied,
      2 position unavailable, 3 timeout, anything else a generic message. */
  function PositionErrorMessage(code: int): (r: string)
    ensures code == 1 <==> r == PermissionDeniedMessage
    ensures code == 2 <==> r == PositionUnavailableMessage
    ensures code == 3 <==> r == TimeoutMessage
    ensures code != 1 && code != 2 && code != 3 <==> r == GenericPositionMessage
  {
    if code == 1 then PermissionDeniedMessage
    else if code == 2 then PositionUnavailableMessage
    else if code == 3 then TimeoutMessage
    else GenericPositionMessage
  }

  /** Two codes share a message exactly when neither is 1, 2 or 3 or they are
      the same code. */
  lemma PositionErrorMessagesDistinct(c1: int, c2: int)
    ensures PositionErrorMessage(c1) == PositionErrorMessage(c2)
        <==> c1 == c2 || (c1 !in {1, 2, 3} && c2 !in {1, 2, 3})
  {
  }

  /** What the position service reports to `getCurrentPosition`. */
  datatype PositionResult = Fix(latitude: real, longitude: real) | PositionError(code: int)

  /** How the reverse-geocoding `fetch` ended: the request itself failed
      (network, or the body was not JSON), the response was not ok, or the
      JSON arrived, with or without an `address` object. */
  datatype LookupResult = LookupFailed | NotOk | Json(address: Option<Address>)

  /** The effects of a lookup that finished: a usable address reports its
      place name and closes the picker; anything else shows the "temporarily
      unavailable" toast and reports nothing. */
  function LookupEffects(lookup: LookupResult): (r: Effects)
    ensures r.chosen.Some? <==> lookup.Json? && lookup.address.Some?
    ensures r.close <==> r.chosen.Some?
    ensures r.chosen.Some? ==> (r.chosen.value == PlaceName(lookup.address.value)
      && r.notice == Some(Notice(SuccessToast, "Location detected: " + r.chosen.value)))
    ensures r.chosen.None? ==> r.notice == Some(Notice(ErrorToast, LookupUnavailableMessage))
  {
    match lookup
    case Json(Some(address)) =>
      var city := PlaceName(address);
      Effects(Some(city), true, Some(Notice(SuccessToast, "Location detected: " + city)))
    case _ =>
      Effects(None, false, Some(Notice(ErrorToast, LookupUnavailableMessage)))
  }

  // ---------------------------------------------------------------------
  // The popup's state and handlers
  // ---------------------------------------------------------------------

  class LocationPicker {
    var searchValue: string
    var options: seq<SearchOption>
    var loading: bool

    /** The options on offer are always preset cities. */
    ghost predicate Valid()
      reads this
    {
      PresetOptions(options)
    }

    constructor ()
      ensures Valid()
      ensures searchValue == "" && options == [] && !loading
    {
      searchValue := "";
      options := [];
      loading := false;
    }

    /** `handleSearch`: remember the query; offer the matching cities for a
        non-empty one and nothing for an empty one. */
    method HandleSearch(value: string)
      modifies this
      ensures Valid()
      ensures searchValue == value
      ensures value == "" ==> options == []
      ensures value != "" ==> options == ToOptions(MatchingCities(PopularCities, value))
      ensures loading == old(loading)
    {
      searchValue := value;
      if value != "" {
        SuggestionsArePresets(value);
        options := ToOptions(MatchingCities(PopularCities, value));
      } else {
        options := [];
      }
    }

    /** `handleSelect`: report the chosen value, clear the search and close. */
    method HandleSelect(value: string) returns (out: Effects)
      modifies this
      ensures Valid()
      ensures out == Effects(Some(value), true, None)
      ensures searchValue == "" && options == []
      ensures loading == old(loading)
    {
      out := Effects(Some(value), true, None);
      searchValue := "";
      options := [];
    }

    /** `handleCityClick`: report the city and close; nothing else changes. */
    method HandleCityClick(city: string) returns (out: Effects)
      ensures out.chosen == Some(city) && out.close && out.notice.None?
    {
      out := Effects(Some(city), true, None);
    }

    /** The synchronous part of `detectLocation`: without a position service
        show the "unsupported" toast and make no request; otherwise set
        `loading` and request a fix. */
    method StartDetect(geolocationAvailable: bool) returns (requested: bool, out: Effects)
      requires Valid()
      modifies this
      ensures Valid()
      ensures requested == geolocationAvailable
      ensures !requested ==> (out == Effects(None, false, Some(Notice(ErrorToast, UnsupportedMessage)))
        && loading == old(loading))
      ensures requested ==> out == NoEffects && loading
      ensures searchValue == old(searchValue) && options == old(options)
    {
      if !geolocationAvailable {
        requested := false;
        out := Effects(None, false, Some(Notice(ErrorToast, UnsupportedMessage)));
        return;
      }
      loading := true;
      requested := true;
      out := NoEffects;
    }

    /** The success callback once the lookup has finished. */
    method OnPosition(lookup: LookupResult) returns (out: Effects)
      requires Valid()
      modifies this
      ensures Valid()
      ensures out == LookupEffects(lookup)
      ensures !loading
      ensures searchValue == old(searchValue) && options == old(options)
    {
      out := LookupEffects(lookup);
      loading := false;
    }

    /** The error callback: clear `loading`, report nothing, toast the
        message for the code. */
    method OnPositionError(code: int) returns (out: Effects)
      requires Valid()
      modifies this
      ensures Valid()
      ensures out == Effects(None, false, Some(Notice(ErrorToast, PositionErrorMessage(code))))
      ensures !loading
      ensures searchValue == old(searchValue) && options == old(options)
    {
      loading := false;
      out := Effects(None, false, Some(Notice(ErrorToast, PositionErrorMessage(code))));
    }

    /** `detectLocation` run to completion, given what the position service
        and the lookup report. */
    method DetectLocation(geolocationAvailable: bool, position: PositionResult, lookup: LookupResult)
      returns (requested: bool, out: Effects)
      requires Valid()
      modifies this
      ensures Valid()
      ensures requested == geolocationAvailable
      ensures !requested ==> (out == Effects(None, false, Some(Notice(ErrorToast, UnsupportedMessage)))
        && loading == old(loading))
      ensures requested && position.Fix? ==> out == LookupEffects(lookup) && !loading
      ensures requested && position.PositionError? ==>
        out == Effects(None, false, Some(Notice(ErrorToast, PositionErrorMessage(position.code)))) && !loading
      ensures searchValue == old(searchValue) && options == old(options)
    {
      requested, out := StartDetect(geolocationAvailable);
      if requested {
        match position {
          case Fix(_, _) =>
            out := OnPosition(lookup);
          case PositionError(code) =>
            out := OnPositionError(code);
        }
      }
    }
  }
}
