/**
 * `Channel.resolve_countries`: the shippable countries of a channel, read off
 * the channel's shipping zones (`get_countries` inside the resolver).
 */
module ChannelCountries {
  import opened Sorting
  import opened Sequences
  import opened ShippingData

  /** Some zone of `zones` lists `c` among its countries. */
  ghost predicate InSomeZone(zones: seq<ShippingZone>, c: Country) {
    exists k :: 0 <= k < |zones| && c in zones[k].countries
  }

  /** The zones' country lists joined in zone order, as the `extend` loop builds them. */
  function ConcatCountries(zones: seq<ShippingZone>): seq<Country> {
    if zones == [] then [] else ConcatCountries(zones[..|zones| - 1]) + zones[|zones| - 1].countries
  }

  /** The joined list holds exactly the countries of the zones. */
  lemma {:induction false} ConcatCountriesMembers(zones: seq<ShippingZone>, c: Country)
    ensures c in ConcatCountries(zones) <==> InSomeZone(zones, c)
  {
    if zones != [] {
      var init := zones[..|zones| - 1];
      ConcatCountriesMembers(init, c);
      if InSomeZone(init, c) {
        var k :| 0 <= k < |init| && c in init[k].countries;
        assert zones[k] == init[k];
      }
      if c in zones[|zones| - 1].countries {
        assert InSomeZone(zones, c);
      }
      if InSomeZone(zones, c) {
        var k :| 0 <= k < |zones| && c in zones[k].countries;
        if k < |zones| - 1 {
          assert init[k] == zones[k];
        }
      }
    }
  }

  /** The `CountryDisplay` of a country: its code and the name `names` gives
      that code (django_countries' name table, which is not part of this model). */
  function ToDisplay(c: Country, names: string -> string): CountryDisplay {
    CountryDisplay(c.code, names(c.code))
  }

  /** The sort key `country.name`. */
  function ByName(names: string -> string): Country -> string {
    (c: Country) => names(c.code)
  }

  /** The final list comprehension: each country as a display pair. It holds
      the pair of exactly the countries of `s`, repeats no code when `s`
      repeats no country, and is in name order when `s` is. */
  function Displays(s: seq<Country>, names: string -> string): (r: seq<CountryDisplay>)
    ensures forall c :: ToDisplay(c, names) in r <==> c in s
    ensures forall d :: d in r ==> d == ToDisplay(Country(d.code), names)
    ensures Distinct(s) ==> forall i, j :: 0 <= i < j < |r| ==> r[i].code != r[j].code
    ensures SortedBy(s, ByName(names)) ==> forall i, j :: 0 <= i < j < |r| ==> LexLe(r[i].country, r[j].country)
  {
    var r := seq(|s|, i requires 0 <= i < |s| => ToDisplay(s[i], names));
    assert forall c :: c in s ==> ToDisplay(c, names) in r by {
      forall c | c in s ensures ToDisplay(c, names) in r {
        var k :| 0 <= k < |s| && s[k] == c;
        assert r[k] == ToDisplay(c, names);
      }
    }
    r
  }

  /** Sorting a repeat-free list of the zones' countries by name and mapping
      it to display pairs gives the promised result. */
  lemma SortedDisplays(zones: seq<ShippingZone>, listed: seq<Country>, names: string -> string)
    requires Distinct(listed)
    requires forall c :: c in listed <==> InSomeZone(zones, c)
    ensures var r := Displays(SortBy(listed, ByName(names)), names);
      && (forall c :: ToDisplay(c, names) in r <==> InSomeZone(zones, c))
      && (forall d :: d in r ==> InSomeZone(zones, Country(d.code)) && d == ToDisplay(Country(d.code), names))
      && (forall i, j :: 0 <= i < j < |r| ==> r[i].code != r[j].code)
      && (forall i, j :: 0 <= i < j < |r| ==> LexLe(r[i].country, r[j].country))
  {
    var sorted := SortBy(listed, ByName(names));
    DistinctPermutation(listed, sorted);
    forall c ensures c in sorted <==> InSomeZone(zones, c) {
      assert c in sorted <==> c in multiset(listed);
    }
  }

  /**
   * `get_countries`: every country of some zone, once, as a display pair
   * carrying the country's name, ordered by country name. Countries with
   * equal names come out in the unspecified order of the intermediate set.
   */
  method GetCountries(zones: seq<ShippingZone>, names: string -> string) returns (r: seq<CountryDisplay>)
    ensures forall c :: ToDisplay(c, names) in r <==> InSomeZone(zones, c)
    ensures forall d :: d in r ==> InSomeZone(zones, Country(d.code)) && d == ToDisplay(Country(d.code), names)
    ensures forall i, j :: 0 <= i < j < |r| ==> r[i].code != r[j].code
    ensures forall i, j :: 0 <= i < j < |r| ==> LexLe(r[i].country, r[j].country)
  {
    var countries: seq<Country> := [];
    var i := 0;
    while i < |zones|
      invariant 0 <= i <= |zones|
      invariant countries == ConcatCountries(zones[..i])
    {
      assert zones[..i + 1][..i] == zones[..i];
      countries := countries + zones[i].countries;
      i := i + 1;
    }
    assert zones[..|zones|] == zones;

    // list(set(countries)): countries are equal when their codes are; the
    // set's iteration order is not specified.
    var unique := set c | c in countries;
    var listed: seq<Country> := [];
    var rest := unique;
    while rest != {}
      invariant rest <= unique
      invariant forall c :: c in listed <==> c in unique && c !in rest
      invariant Distinct(listed)
      decreases |rest|
    {
      var c :| c in rest;
      listed := listed + [c];
      rest := rest - {c};
    }

    forall c ensures c in listed <==> InSomeZone(zones, c) {
      ConcatCountriesMembers(zones, c);
    }
    r := Displays(SortBy(listed, ByName(names)), names);
    SortedDisplays(zones, listed, names);
  }
}
