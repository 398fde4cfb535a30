/** The locations endpoint: the country list (without Israel, with
    Palestine exactly once, sorted) and a country's sorted city list, both
    read from the bundled countries table. */
module Locations {
  import opened Optional
  import opened Text
  import opened Collation

  const Excluded := "Israel"
  const Added := "Palestine"
  const LoadFailure := "Failed to load locations"

  /** A value of the countries table: a list of city names, or anything
      else. */
  datatype Entry = CityArray(cities: seq<string>) | NotArray

  /** The parsed table: its keys in `Object.keys` order and the value of
      each key. */
  datatype CountryTable = CountryTable(keys: seq<string>, entries: map<string, Entry>)

  datatype LocationsReply =
    | CityList(country: string, cities: seq<string>)
    | CountryList(countries: seq<string>)
    | Failed(status: nat, error: string)

  /** `if (!names.includes('Palestine')) names.unshift('Palestine')`. */
  function WithPalestine(names: seq<string>): (r: seq<string>)
    ensures Added in r
    ensures forall x :: x in r <==> x in names || x == Added
    ensures Added in names ==> r == names
    ensures Added !in names ==> |r| == |names| + 1 && r[0] == Added && r[1..] == names
    ensures multiset(r)[Added] == if Added in names then multiset(names)[Added] else 1
    ensures forall x :: x != Added ==> multiset(r)[x] == multiset(names)[x]
  {
    if Added in names then names else [Added] + names
  }

  /** The list sent before sorting: the keys other than Israel, with
      Palestine in front when it is not a key. */
  function CountryNames(keys: seq<string>): (r: seq<string>)
    ensures Excluded !in r && Added in r
    ensures forall x :: x in r <==> (x in keys && x != Excluded) || x == Added
  {
    WithPalestine(RemoveAll(keys, Excluded))
  }

  /** Keys are distinct, so the country list names Palestine exactly once
      and every other country at most once. */
  lemma CountryNamesDistinct(keys: seq<string>)
    requires NoDups(keys)
    ensures multiset(CountryNames(keys))[Added] == 1
    ensures forall x :: multiset(CountryNames(keys))[x] <= 1
  {
    forall x
      ensures multiset(keys)[x] <= 1
    {
      DistinctCount(keys, x);
    }
  }

  lemma {:induction false} DistinctCount(xs: seq<string>, x: string)
    requires NoDups(xs)
    ensures multiset(xs)[x] <= 1
  {
    if xs != [] {
      assert xs == [xs[0]] + xs[1..];
      assert NoDups(xs[1..]) by {
        forall i, j | 0 <= i < j < |xs| - 1
          ensures xs[1..][i] != xs[1..][j]
        {
          assert xs[i + 1] != xs[j + 1];
        }
      }
      DistinctCount(xs[1..], x);
      if xs[0] == x {
        assert x !in xs[1..] by {
          forall j | 0 <= j < |xs| - 1
            ensures xs[1..][j] != x
          {
            assert xs[0] != xs[j + 1];
          }
        }
      }
    }
  }

  /** `Array.isArray(json[country]) ? json[country] : []`. */
  function CitiesOf(table: CountryTable, country: string): (r: seq<string>)
    ensures country in table.entries && table.entries[country].CityArray? ==>
      r == table.entries[country].cities
    ensures !(country in table.entries && table.entries[country].CityArray?) ==> r == []
  {
    if country in table.entries && table.entries[country].CityArray? then table.entries[country].cities else []
  }

  /** `GET /api/locations[?country=…]`; `table` is `None` when the file
      cannot be read or parsed. */
  method Get(table: Option<CountryTable>, country: Option<string>) returns (r: LocationsReply)
    ensures table.None? ==> r == Failed(500, LoadFailure)
    ensures table.Some? && Truthy(country) ==>
      r.CityList? && r.country == country.value && Sorted(r.cities) &&
      multiset(r.cities) == multiset(CitiesOf(table.value, country.value))
    ensures table.Some? && !Truthy(country) ==>
      r.CountryList? && Sorted(r.countries) &&
      multiset(r.countries) == multiset(CountryNames(table.value.keys))
  {
    if table.None? {
      return Failed(500, LoadFailure);
    }
    var json := table.value;
    if Truthy(country) {
      var cities := SortedCopy(CitiesOf(json, country.value));
      return CityList(country.value, cities);
    }
    var countries := RemoveAll(json.keys, Excluded);
    if Added !in countries {
      countries := [Added] + countries;
    }
    countries := SortedCopy(countries);
    return CountryList(countries);
  }

  /** The reply does not depend on the order of the keys: any two sorted
      lists of the same countries are the same list. */
  lemma CountryListDetermined(keys1: seq<string>, keys2: seq<string>, r1: seq<string>, r2: seq<string>)
    requires multiset(keys1) == multiset(keys2)
    requires Sorted(r1) && multiset(r1) == multiset(CountryNames(keys1))
    requires Sorted(r2) && multiset(r2) == multiset(CountryNames(keys2))
    ensures r1 == r2
  {
    forall x
      ensures multiset(CountryNames(keys1))[x] == multiset(CountryNames(keys2))[x]
    {
      assert x in keys1 <==> x in keys2 by {
        assert x in keys1 <==> x in multiset(keys1);
        assert x in keys2 <==> x in multiset(keys2);
      }
    }
    assert multiset(CountryNames(keys1)) == multiset(CountryNames(keys2));
    SortedUnique(r1, r2);
  }
}
