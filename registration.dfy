/** The profile registration form's location lists: the country options it
    builds from the country library (or from the static list when the
    library cannot be loaded), the name-to-ISO-code table, and the city
    options it picks whenever the country changes. */
module Registration {
  import opened Optional
  import opened Text
  import opened Collation
  import opened Locations

  /** A country as the library lists it. */
  datatype LibCountry = LibCountry(name: string, isoCode: string)

  /** The names the loop pushes, in library order: every country but
      Israel. */
  function KeptNames(all: seq<LibCountry>): (r: seq<string>)
    ensures Excluded !in r
    ensures |r| <= |all|
    ensures forall n :: n in r <==> exists k :: 0 <= k < |all| && all[k].name == n && n != Excluded
  {
    if all == [] then []
    else
      var init := all[..|all| - 1];
      var c := all[|all| - 1];
      assert forall k :: 0 <= k < |init| ==> init[k] == all[k];
      KeptNames(init) + (if c.name == Excluded then [] else [c.name])
  }

  /** The table the loop fills: for each kept name, the ISO code of its
      last occurrence. */
  function IsoMap(all: seq<LibCountry>): (r: map<string, string>)
    ensures Excluded !in r
    ensures forall n :: n in r <==> exists k :: 0 <= k < |all| && all[k].name == n && n != Excluded
  {
    if all == [] then map[]
    else
      var init := all[..|all| - 1];
      var c := all[|all| - 1];
      assert forall k :: 0 <= k < |init| ==> init[k] == all[k];
      if c.name == Excluded then IsoMap(init) else IsoMap(init)[c.name := c.isoCode]
  }

  /** The code recorded for a name is the code of its last occurrence. */
  lemma {:induction false} IsoMapLast(all: seq<LibCountry>, k: nat)
    requires k < |all| && all[k].name != Excluded
    requires forall j :: k < j < |all| ==> all[j].name != all[k].name
    ensures all[k].name in IsoMap(all) && IsoMap(all)[all[k].name] == all[k].isoCode
  {
    var init := all[..|all| - 1];
    if k < |all| - 1 {
      assert forall j :: k < j < |init| ==> init[j] == all[j];
      IsoMapLast(init, k);
    }
  }

  /** The library loop and the Palestine insertion, with the arrays as
      sequences the loop appends to. */
  method CollectCountries(all: seq<LibCountry>) returns (names: seq<string>, iso: map<string, string>)
    ensures names == WithPalestine(KeptNames(all))
    ensures iso == IsoMap(all)
  {
    names := [];
    iso := map[];
    var i := 0;
    while i < |all|
      invariant 0 <= i <= |all|
      invariant names == KeptNames(all[..i])
      invariant iso == IsoMap(all[..i])
    {
      var c := all[i];
      assert all[..i + 1][..i] == all[..i];
      if c.name != Excluded {
        names := names + [c.name];
        iso := iso[c.name := c.isoCode];
      }
      i := i + 1;
    }
    assert all[..i] == all;
    if Added !in names {
      names := [Added] + names;
    }
  }

  /** The options when the library cannot be loaded: the static list
      without Israel, with Palestine appended whether or not it is there. */
  function StaticCountryOptions(countries: seq<string>): (r: seq<string>)
    ensures |r| >= 1 && r[|r| - 1] == Added
    ensures Excluded !in r
    ensures multiset(r)[Added] == multiset(countries)[Added] + 1
    ensures forall x :: x != Added && x != Excluded ==> multiset(r)[x] == multiset(countries)[x]
  {
    RemoveAll(countries, Excluded) + [Added]
  }

  const CityLimit := 500

  const PalestineCities: seq<string> :=
    ["Gaza", "Ramallah", "Hebron", "Nablus", "Jenin", "Jericho", "East Jerusalem"]

  /** What the city library gives: it failed to load, or it returned a
      list of city names, or nothing (`null`). */
  datatype CityLookup = LibraryFailed | LibraryCities(found: Option<seq<string>>)

  /** The ISO code the form knows for `country`, when it is a non-empty
      string. */
  function IsoCode(isoMap: map<string, string>, country: string): Option<string> {
    if country in isoMap then Some(isoMap[country]) else None
  }

  /** The city options the effect installs for `country`, before sorting,
      or `None` when it installs nothing (the library answered after the
      effect was cleaned up). */
  function CityCandidates(
    country: string, isoMap: map<string, string>, curated: map<string, seq<string>>,
    allCities: seq<string>, lookup: CityLookup, mounted: bool): (r: Option<seq<string>>)
    ensures country == "" ==> r == Some([])
    ensures country == Added ==> r == Some(PalestineCities)
    ensures r.None? <==>
      country != "" && country != Added && Truthy(IsoCode(isoMap, country)) && lookup.LibraryCities? && !mounted
    ensures country != "" && country != Added && !Truthy(IsoCode(isoMap, country)) ==>
      r == Some(if country in curated then curated[country] else [])
    ensures (r.Some? && country != "" && country != Added && Truthy(IsoCode(isoMap, country)) &&
             lookup.LibraryCities? && lookup.found.Some? && lookup.found.value != []) ==>
      |r.value| == if |lookup.found.value| < CityLimit then |lookup.found.value| else CityLimit
    ensures (r.Some? && lookup.LibraryCities? && lookup.found.Some? && Truthy(IsoCode(isoMap, country)) &&
             country != Added && lookup.found.value != []) ==>
      forall k :: 0 <= k < |r.value| ==> r.value[k] == lookup.found.value[k]
    ensures LibraryFailedPath(country, isoMap, lookup) ==>
      r == Some(if country in curated then curated[country] else allCities)
  {
    if country == "" then Some([])
    else if country == Added then Some(PalestineCities)
    else if !Truthy(IsoCode(isoMap, country)) then
      Some(if country in curated then curated[country] else [])
    else
      match lookup
      case LibraryFailed => Some(if country in curated then curated[country] else allCities)
      case LibraryCities(found) =>
        if !mounted then None
        else
          var objs := found.GetOr([]);
          var names := if |objs| < CityLimit then objs else objs[..CityLimit];
          Some(if names != [] then names else if country in curated then curated[country] else [])
  }

  /** The effect reached the library and the library failed: the catch
      installs its fallback list without sorting it. */
  predicate LibraryFailedPath(country: string, isoMap: map<string, string>, lookup: CityLookup) {
    country != "" && country != Added && Truthy(IsoCode(isoMap, country)) && lookup.LibraryFailed?
  }

  /** When the library finds no city, the curated list (or nothing) is
      offered instead. */
  lemma NoLibraryCitiesFallsBack(
    country: string, isoMap: map<string, string>, curated: map<string, seq<string>>,
    allCities: seq<string>, found: Option<seq<string>>)
    requires country != "" && country != Added && Truthy(IsoCode(isoMap, country))
    requires found.None? || found.value == []
    ensures CityCandidates(country, isoMap, curated, allCities, LibraryCities(found), true) ==
      Some(if country in curated then curated[country] else [])
  {
  }

  /** A list each of whose elements sorts no later than the next is
      sorted. */
  lemma {:induction false} AdjacentSorted(s: seq<string>)
    requires forall k :: 0 <= k < |s| - 1 ==> Below(s[k], s[k + 1])
    ensures Sorted(s)
  {
    if |s| > 1 {
      var t := s[1..];
      assert forall k :: 0 <= k < |t| ==> t[k] == s[k + 1];
      AdjacentSorted(t);
      forall l | 1 < l < |s|
        ensures Below(s[0], s[l])
      {
        assert Below(t[0], t[l - 1]);
        BelowTransitive(s[0], s[1], s[l]);
      }
      forall k, l | 0 <= k < l < |s|
        ensures Below(s[k], s[l])
      {
        if k > 0 {
          assert Below(t[k - 1], t[l - 1]);
        }
      }
    }
  }

  /** The seven Palestinian cities in sorted order. */
  const PalestineCitiesSorted: seq<string> :=
    ["East Jerusalem", "Gaza", "Hebron", "Jenin", "Jericho", "Nablus", "Ramallah"]

  lemma PalestineCitiesSortedIsSorted()
    ensures Sorted(PalestineCitiesSorted)
  {
    var s := PalestineCitiesSorted;
    assert Below(s[0], s[1]) && Below(s[1], s[2]) && Below(s[2], s[3]);
    assert Below(s[3], s[4]) by {
      assert Below("nin", "richo");
    }
    assert Below(s[4], s[5]) && Below(s[5], s[6]);
    AdjacentSorted(s);
  }

  lemma PalestineCitiesPermuted()
    ensures multiset(PalestineCitiesSorted) == multiset(PalestineCities)
  {
    var s := PalestineCities;
    assert s == s[..1] + s[1..2] + s[2..3] + s[3..4] + s[4..6] + s[6..];
    assert PalestineCitiesSorted == s[6..] + s[..1] + s[2..3] + s[4..6] + s[3..4] + s[1..2];
    Rearranged(s[..1], s[1..2], s[2..3], s[3..4], s[4..6], s[6..]);
  }

  /** Reassembling the pieces of a list in another order keeps its elements. */
  lemma Rearranged(a: seq<string>, b: seq<string>, c: seq<string>, d: seq<string>, e: seq<string>, f: seq<string>)
    ensures multiset(f + a + c + e + d + b) == multiset(a + b + c + d + e + f)
  {
  }

  /** Sorting the Palestinian cities gives exactly the list above. */
  lemma PalestineCitiesSortedOrder(r: seq<string>)
    requires Sorted(r) && multiset(r) == multiset(PalestineCities)
    ensures r == PalestineCitiesSorted
  {
    PalestineCitiesSortedIsSorted();
    PalestineCitiesPermuted();
    SortedUnique(r, PalestineCitiesSorted);
  }

  class RegistrationForm {
    var locationCountry: string
    var locationCity: string
    var countryOptions: seq<string>
    var countryIsoMap: map<string, string>
    var cityOptions: seq<string>

    /** The form as first rendered, over the static country and city
        lists. */
    constructor (countries: seq<string>, allCities: seq<string>)
      ensures locationCountry == "" && locationCity == ""
      ensures countryOptions == countries && countryIsoMap == map[] && cityOptions == allCities
    {
      locationCountry := "";
      locationCity := "";
      countryOptions := countries;
      countryIsoMap := map[];
      cityOptions := allCities;
    }

    /** Typing in the country field: the chosen city is cleared. */
    method ChangeCountry(value: string)
      modifies this`locationCountry, this`locationCity
      ensures locationCountry == value && locationCity == ""
    {
      locationCountry := value;
      locationCity := "";
    }

    /** The country effect: `library` is `None` when the library cannot be
        imported; `mounted` is false when the form was unmounted before the
        library answered. */
    method LoadCountries(library: Option<seq<LibCountry>>, countries: seq<string>, mounted: bool)
      modifies this`countryOptions, this`countryIsoMap
      ensures library.None? ==>
        countryOptions == StaticCountryOptions(countries) && countryIsoMap == old(countryIsoMap)
      ensures library.Some? && mounted ==>
        countryOptions == WithPalestine(KeptNames(library.value)) && countryIsoMap == IsoMap(library.value)
      ensures library.Some? && !mounted ==>
        countryOptions == old(countryOptions) && countryIsoMap == old(countryIsoMap)
    {
      if library.None? {
        countryOptions := StaticCountryOptions(countries);
        return;
      }
      var names, iso := CollectCountries(library.value);
      if !mounted {
        return;
      }
      countryOptions := names;
      countryIsoMap := iso;
    }

    /** The city effect for the current country: the candidates, sorted in
        place, become the city options, except on the library-failure path,
        whose fallback list is installed as it is. */
    method LoadCities(curated: map<string, seq<string>>, allCities: seq<string>, lookup: CityLookup, mounted: bool)
      modifies this`cityOptions
      ensures CityCandidates(locationCountry, countryIsoMap, curated, allCities, lookup, mounted).None? ==>
        cityOptions == old(cityOptions)
      ensures LibraryFailedPath(locationCountry, countryIsoMap, lookup) ==>
        cityOptions == CityCandidates(locationCountry, countryIsoMap, curated, allCities, lookup, mounted).value
      ensures CityCandidates(locationCountry, countryIsoMap, curated, allCities, lookup, mounted).Some? &&
              !LibraryFailedPath(locationCountry, countryIsoMap, lookup) ==>
        Sorted(cityOptions) &&
        multiset(cityOptions) ==
          multiset(CityCandidates(locationCountry, countryIsoMap, curated, allCities, lookup, mounted).value)
    {
      var candidates := CityCandidates(locationCountry, countryIsoMap, curated, allCities, lookup, mounted);
      if candidates.Some? {
        if LibraryFailedPath(locationCountry, countryIsoMap, lookup) {
          cityOptions := candidates.value;
        } else {
          cityOptions := SortedCopy(candidates.value);
        }
      }
    }
  }

  /** Choosing Palestine offers its seven cities in sorted order. */
  lemma PalestineOptions(r: seq<string>, isoMap: map<string, string>,
                         curated: map<string, seq<string>>, allCities: seq<string>, lookup: CityLookup, mounted: bool)
    requires Sorted(r) && multiset(r) == multiset(CityCandidates(Added, isoMap, curated, allCities, lookup, mounted).value)
    ensures r == PalestineCitiesSorted
  {
    PalestineCitiesSortedOrder(r);
  }
}
