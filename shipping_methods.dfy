/**
 * `Channel.resolve_available_shipping_methods_per_country`: the channel's
 * shipping methods grouped by the country codes of their zones, with the
 * zone map filled by `get_shipping_methods` and the grouping done by
 * `_group_shipping_methods_by_country`.
 *
 * `convert_to_shipping_method_data` is not part of this model; it is the
 * parameter `convert`, an arbitrary function of a method and its listing.
 */
module ChannelShippingMethods {
  import opened Sorting
  import opened Sequences
  import opened ShippingData

  type Listing = ShippingMethodChannelListing

  /** `listings[i]` is the last listing of method `id` in `listings`. */
  ghost predicate LastListingAt(listings: seq<Listing>, id: int, i: int) {
    && 0 <= i < |listings|
    && listings[i].shippingMethodId == id
    && forall j :: i < j < |listings| ==> listings[j].shippingMethodId != id
  }

  /** `zones[i]` is the last zone with id `id` in `zones`. */
  ghost predicate LastZoneAt(zones: seq<ShippingZone>, id: int, i: int) {
    && 0 <= i < |zones|
    && zones[i].id == id
    && forall j :: i < j < |zones| ==> zones[j].id != id
  }

  /** The dict comprehension keyed by shipping method id: each key maps to a
      listing of that method. */
  function ListingMap(listings: seq<Listing>): (r: map<int, Listing>)
    ensures forall id :: id in r ==> r[id] in listings && r[id].shippingMethodId == id
  {
    if listings == [] then map[]
    else
      var last := listings[|listings| - 1];
      ListingMap(listings[..|listings| - 1])[last.shippingMethodId := last]
  }

  /** The listing map has a key for each listed method, and a method's later
      listing replaces an earlier one. */
  lemma {:induction false} ListingMapLastWins(listings: seq<Listing>, id: int)
    ensures id in ListingMap(listings) <==> exists i :: 0 <= i < |listings| && listings[i].shippingMethodId == id
    ensures id in ListingMap(listings) ==>
      exists i :: LastListingAt(listings, id, i) && ListingMap(listings)[id] == listings[i]
  {
    if listings != [] {
      var n := |listings| - 1;
      var init := listings[..n];
      ListingMapLastWins(init, id);
      assert ListingMap(listings) == ListingMap(init)[listings[n].shippingMethodId := listings[n]];
      if id == listings[n].shippingMethodId {
        assert LastListingAt(listings, id, n);
      } else {
        if id in ListingMap(init) {
          var i :| LastListingAt(init, id, i) && ListingMap(init)[id] == init[i];
          assert LastListingAt(listings, id, i);
        }
        if exists i :: 0 <= i < |listings| && listings[i].shippingMethodId == id {
          var i :| 0 <= i < |listings| && listings[i].shippingMethodId == id;
          assert init[i].shippingMethodId == id;
        }
      }
    }
  }

  /** The loop of `get_shipping_methods` that fills `shipping_zone_countries`:
      each zone id maps to the countries of the last zone with that id. */
  method BuildZoneCountries(zones: seq<ShippingZone>) returns (zoneCountries: map<int, seq<Country>>)
    ensures forall id :: id in zoneCountries <==> exists i :: 0 <= i < |zones| && zones[i].id == id
    ensures forall id :: id in zoneCountries ==>
      exists i :: LastZoneAt(zones, id, i) && zoneCountries[id] == zones[i].countries
  {
    zoneCountries := map[];
    for k := 0 to |zones|
      invariant forall id :: id in zoneCountries <==> exists i :: 0 <= i < k && zones[i].id == id
      invariant forall id :: id in zoneCountries ==>
        exists i :: LastZoneAt(zones[..k], id, i) && zoneCountries[id] == zones[i].countries
    {
      var zone := zones[k];
      forall id | id in zoneCountries && id != zone.id
        ensures exists i :: LastZoneAt(zones[..k + 1], id, i) && zoneCountries[id] == zones[i].countries
      {
        var i :| LastZoneAt(zones[..k], id, i) && zoneCountries[id] == zones[i].countries;
        assert LastZoneAt(zones[..k + 1], id, i);
      }
      assert LastZoneAt(zones[..k + 1], zone.id, k);
      zoneCountries := zoneCountries[zone.id := zone.countries];
    }
    assert zones[..|zones|] == zones;
  }

  /** Country codes of a zone's countries, in order. */
  function CountryCodes(cs: seq<Country>): seq<string> {
    seq(|cs|, i requires 0 <= i < |cs| => cs[i].code)
  }

  /** `shipping_zone_countries.get(method.shipping_zone_id, [])`. */
  function ZoneCountriesOf(zoneCountries: map<int, seq<Country>>, m: ShippingMethod): seq<Country> {
    if m.shippingZoneId in zoneCountries then zoneCountries[m.shippingZoneId] else []
  }

  /** One copy of `d` for each country of `cs` with code `code`, as the
      loop over the zone's countries appends them. */
  function Occurrences<D>(cs: seq<Country>, d: D, code: string): seq<D> {
    if cs == [] then []
    else Occurrences(cs[..|cs| - 1], d, code) + (if cs[|cs| - 1].code == code then [d] else [])
  }

  /** What method `m` adds to the list of country code `code`: nothing without a
      listing, otherwise its converted value once per matching zone country. */
  function Contribution<D>(m: ShippingMethod, listingMap: map<int, Listing>,
                           zoneCountries: map<int, seq<Country>>,
                           convert: (ShippingMethod, Listing) -> D, code: string): seq<D>
  {
    if m.id in listingMap then Occurrences(ZoneCountriesOf(zoneCountries, m), convert(m, listingMap[m.id]), code)
    else []
  }

  /** Reference definition of `shipping_methods_per_country[code]`: the
      contributions of the methods for `code`, in method order. */
  function Group<D>(methods: seq<ShippingMethod>, listingMap: map<int, Listing>,
                    zoneCountries: map<int, seq<Country>>,
                    convert: (ShippingMethod, Listing) -> D, code: string): seq<D>
  {
    if methods == [] then []
    else Group(methods[..|methods| - 1], listingMap, zoneCountries, convert, code)
         + Contribution(methods[|methods| - 1], listingMap, zoneCountries, convert, code)
  }

  /** `Group` of a concatenation is the concatenation of the groups. */
  lemma {:induction false} GroupAppend<D>(a: seq<ShippingMethod>, b: seq<ShippingMethod>,
                                          listingMap: map<int, Listing>, zoneCountries: map<int, seq<Country>>,
                                          convert: (ShippingMethod, Listing) -> D, code: string)
    ensures Group(a + b, listingMap, zoneCountries, convert, code)
            == Group(a, listingMap, zoneCountries, convert, code) + Group(b, listingMap, zoneCountries, convert, code)
    decreases |b|
  {
    if b == [] {
      assert a + b == a;
    } else {
      var n := |b| - 1;
      assert (a + b)[..|a + b| - 1] == a + b[..n];
      GroupAppend(a, b[..n], listingMap, zoneCountries, convert, code);
    }
  }

  /** A method's group for `code` is its contribution. */
  lemma GroupSingle<D>(m: ShippingMethod, listingMap: map<int, Listing>, zoneCountries: map<int, seq<Country>>,
                       convert: (ShippingMethod, Listing) -> D, code: string)
    ensures Group([m], listingMap, zoneCountries, convert, code) == Contribution(m, listingMap, zoneCountries, convert, code)
  {
    assert [m][..0] == [];
  }

  /** A method with no channel listing adds nothing to any country's list. */
  lemma UnlistedMethodContributesNothing<D>(a: seq<ShippingMethod>, m: ShippingMethod, b: seq<ShippingMethod>,
                                            listingMap: map<int, Listing>, zoneCountries: map<int, seq<Country>>,
                                            convert: (ShippingMethod, Listing) -> D, code: string)
    requires m.id !in listingMap
    ensures Group(a + [m] + b, listingMap, zoneCountries, convert, code)
            == Group(a + b, listingMap, zoneCountries, convert, code)
  {
    GroupAppend(a + [m], b, listingMap, zoneCountries, convert, code);
    GroupAppend(a, [m], listingMap, zoneCountries, convert, code);
    GroupAppend(a, b, listingMap, zoneCountries, convert, code);
    GroupSingle(m, listingMap, zoneCountries, convert, code);
  }

  /** A method whose zone is not in the zone map adds nothing to any country's list. */
  lemma ZonelessMethodContributesNothing<D>(a: seq<ShippingMethod>, m: ShippingMethod, b: seq<ShippingMethod>,
                                            listingMap: map<int, Listing>, zoneCountries: map<int, seq<Country>>,
                                            convert: (ShippingMethod, Listing) -> D, code: string)
    requires m.shippingZoneId !in zoneCountries
    ensures Group(a + [m] + b, listingMap, zoneCountries, convert, code)
            == Group(a + b, listingMap, zoneCountries, convert, code)
  {
    GroupAppend(a + [m], b, listingMap, zoneCountries, convert, code);
    GroupAppend(a, [m], listingMap, zoneCountries, convert, code);
    GroupAppend(a, b, listingMap, zoneCountries, convert, code);
    GroupSingle(m, listingMap, zoneCountries, convert, code);
  }

  /** `Occurrences` holds `d` once per country of `cs` with code `code`, and nothing else. */
  lemma {:induction false} OccurrencesCount<D>(cs: seq<Country>, d: D, code: string)
    ensures |Occurrences(cs, d, code)| == multiset(CountryCodes(cs))[code]
    ensures forall x :: x in Occurrences(cs, d, code) ==> x == d
  {
    if cs != [] {
      var n := |cs| - 1;
      OccurrencesCount(cs[..n], d, code);
      assert CountryCodes(cs) == CountryCodes(cs[..n]) + [cs[n].code];
    }
  }

  /** When a zone lists each country code once, `Occurrences` is one `d` for
      a code of the zone and nothing for any other code. */
  lemma OccurrencesOfDistinct<D>(cs: seq<Country>, d: D, code: string)
    requires Distinct(CountryCodes(cs))
    ensures Occurrences(cs, d, code) == if code in CountryCodes(cs) then [d] else []
  {
    OccurrencesCount(cs, d, code);
    DistinctCountAtMostOne(CountryCodes(cs), code);
    var o := Occurrences(cs, d, code);
    if |o| == 1 {
      assert o[0] in o;
      assert o == [d];
    }
  }

  /** A listed method whose zone is in the map and lists each code once adds
      exactly one converted entry to the list of each country of that zone,
      after the entries of the methods before it and before those after it. */
  lemma ListedMethodOncePerCountry<D>(a: seq<ShippingMethod>, m: ShippingMethod, b: seq<ShippingMethod>,
                                      listingMap: map<int, Listing>, zoneCountries: map<int, seq<Country>>,
                                      convert: (ShippingMethod, Listing) -> D, code: string)
    requires m.id in listingMap && m.shippingZoneId in zoneCountries
    requires Distinct(CountryCodes(zoneCountries[m.shippingZoneId]))
    ensures Group(a + [m] + b, listingMap, zoneCountries, convert, code)
            == Group(a, listingMap, zoneCountries, convert, code)
               + (if code in CountryCodes(zoneCountries[m.shippingZoneId]) then [convert(m, listingMap[m.id])] else [])
               + Group(b, listingMap, zoneCountries, convert, code)
  {
    GroupAppend(a + [m], b, listingMap, zoneCountries, convert, code);
    GroupAppend(a, [m], listingMap, zoneCountries, convert, code);
    GroupSingle(m, listingMap, zoneCountries, convert, code);
    OccurrencesOfDistinct(zoneCountries[m.shippingZoneId], convert(m, listingMap[m.id]), code);
  }

  /** `m` has a listing and its zone covers country code `code`. */
  predicate Eligible(m: ShippingMethod, listingMap: map<int, Listing>,
                     zoneCountries: map<int, seq<Country>>, code: string)
  {
    m.id in listingMap && code in CountryCodes(ZoneCountriesOf(zoneCountries, m))
  }

  /** The methods eligible for `code`, in input order. */
  function EligibleMethods(methods: seq<ShippingMethod>, listingMap: map<int, Listing>,
                           zoneCountries: map<int, seq<Country>>, code: string): (r: seq<ShippingMethod>)
    ensures forall m :: m in r ==> m.id in listingMap
  {
    if methods == [] then []
    else
      var m := methods[|methods| - 1];
      EligibleMethods(methods[..|methods| - 1], listingMap, zoneCountries, code)
      + (if Eligible(m, listingMap, zoneCountries, code) then [m] else [])
  }

  /** Each method converted together with its listing, in order. */
  function ConvertAll<D>(methods: seq<ShippingMethod>, listingMap: map<int, Listing>,
                         convert: (ShippingMethod, Listing) -> D): seq<D>
    requires forall m :: m in methods ==> m.id in listingMap
  {
    if methods == [] then []
    else
      var m := methods[|methods| - 1];
      ConvertAll(methods[..|methods| - 1], listingMap, convert) + [convert(m, listingMap[m.id])]
  }

  /** When every zone lists each country code once, a country's list is the
      eligible methods converted, in the order the methods were given. */
  lemma {:induction false} GroupInMethodOrder<D>(methods: seq<ShippingMethod>, listingMap: map<int, Listing>,
                                                 zoneCountries: map<int, seq<Country>>,
                                                 convert: (ShippingMethod, Listing) -> D, code: string)
    requires forall id :: id in zoneCountries ==> Distinct(CountryCodes(zoneCountries[id]))
    ensures Group(methods, listingMap, zoneCountries, convert, code)
            == ConvertAll(EligibleMethods(methods, listingMap, zoneCountries, code), listingMap, convert)
  {
    if methods != [] {
      var n := |methods| - 1;
      var m := methods[n];
      GroupInMethodOrder(methods[..n], listingMap, zoneCountries, convert, code);
      var e := EligibleMethods(methods[..n], listingMap, zoneCountries, code);
      var g := Group(methods[..n], listingMap, zoneCountries, convert, code);
      assert Group(methods, listingMap, zoneCountries, convert, code)
          == g + Contribution(m, listingMap, zoneCountries, convert, code);
      if m.id in listingMap {
        var d := convert(m, listingMap[m.id]);
        OccurrencesOfDistinct(ZoneCountriesOf(zoneCountries, m), d, code);
        if Eligible(m, listingMap, zoneCountries, code) {
          assert EligibleMethods(methods, listingMap, zoneCountries, code) == e + [m];
          assert (e + [m])[..|e + [m]| - 1] == e;
          assert ConvertAll(e + [m], listingMap, convert) == ConvertAll(e, listingMap, convert) + [d];
        } else {
          assert EligibleMethods(methods, listingMap, zoneCountries, code) == e;
        }
      } else {
        assert EligibleMethods(methods, listingMap, zoneCountries, code) == e;
      }
    }
  }

  /** `defaultdict.get(code, [])`. */
  function Lookup<D>(perCountry: map<string, seq<D>>, code: string): seq<D> {
    if code in perCountry then perCountry[code] else []
  }

  /** `codes` followed, in order, by each code of `cs` it does not hold yet:
      how the keys of a dict grow as `cs` are appended to in turn. */
  function AddNew(codes: seq<string>, cs: seq<string>): seq<string> {
    if cs == [] then codes
    else
      var init := AddNew(codes, cs[..|cs| - 1]);
      if cs[|cs| - 1] in init then init else init + [cs[|cs| - 1]]
  }

  /** `AddNew` keeps the old keys in front, adds exactly the new codes and
      repeats none. */
  lemma {:induction false} AddNewFirstOccurrences(codes: seq<string>, cs: seq<string>)
    ensures codes <= AddNew(codes, cs)
    ensures forall x :: x in AddNew(codes, cs) <==> x in codes || x in cs
    ensures Distinct(codes) ==> Distinct(AddNew(codes, cs))
  {
    if cs != [] {
      var n := |cs| - 1;
      AddNewFirstOccurrences(codes, cs[..n]);
      assert cs == cs[..n] + [cs[n]];
    }
  }

  /** The codes a method appends to: its zone's, when it has a listing. */
  function ListedCodes(m: ShippingMethod, listingMap: map<int, Listing>,
                       zoneCountries: map<int, seq<Country>>): seq<string>
  {
    if m.id in listingMap then CountryCodes(ZoneCountriesOf(zoneCountries, m)) else []
  }

  /** The defaultdict's key order after `methods`: each code in the order it
      first receives a method. */
  function KeyOrder(methods: seq<ShippingMethod>, listingMap: map<int, Listing>,
                    zoneCountries: map<int, seq<Country>>): seq<string>
  {
    if methods == [] then []
    else AddNew(KeyOrder(methods[..|methods| - 1], listingMap, zoneCountries),
                ListedCodes(methods[|methods| - 1], listingMap, zoneCountries))
  }

  /** The defaultdict's keys: only codes that received a method, each listed
      once in `codes` (the dict's insertion order). */
  ghost predicate KeysTracked<D>(perCountry: map<string, seq<D>>, codes: seq<string>) {
    && (forall code :: code in perCountry <==> code in codes)
    && (forall code :: code in perCountry ==> perCountry[code] != [])
    && Distinct(codes)
  }

  /** The comprehension over `requested_countries`: one entry per requested
      code that has methods, repeats included. */
  function RequestedEntries<D>(requested: seq<string>, perCountry: map<string, seq<D>>)
    : (r: seq<ShippingMethodsPerCountry<D>>)
    ensures forall e :: e in r ==> e.countryCode in perCountry && e.shippingMethods == perCountry[e.countryCode]
    ensures forall code :: multiset(r)[ShippingMethodsPerCountry(code, Lookup(perCountry, code))]
                           == if code in perCountry then multiset(requested)[code] else 0
  {
    if requested == [] then []
    else
      var n := |requested| - 1;
      var code := requested[n];
      assert requested == requested[..n] + [code];
      var init := RequestedEntries(requested[..n], perCountry);
      if code in perCountry then init + [ShippingMethodsPerCountry(code, Lookup(perCountry, code))] else init
  }

  /** The comprehension over the dict's keys: one entry per key. */
  function AllEntries<D>(codes: seq<string>, perCountry: map<string, seq<D>>)
    : (r: seq<ShippingMethodsPerCountry<D>>)
    requires forall code :: code in codes ==> code in perCountry
    ensures forall e :: e in r ==> e.countryCode in perCountry && e.shippingMethods == perCountry[e.countryCode]
    ensures forall code :: multiset(r)[ShippingMethodsPerCountry(code, Lookup(perCountry, code))]
                           == multiset(codes)[code]
  {
    if codes == [] then []
    else
      var n := |codes| - 1;
      var code := codes[n];
      assert codes == codes[..n] + [code];
      AllEntries(codes[..n], perCountry) + [ShippingMethodsPerCountry(code, perCountry[code])]
  }

  /** What `m` has added to the list of `code` after the first countries `cs` of its zone. */
  function Partial<D>(m: ShippingMethod, listingMap: map<int, Listing>, cs: seq<Country>,
                      convert: (ShippingMethod, Listing) -> D, code: string): seq<D>
  {
    if m.id in listingMap then Occurrences(cs, convert(m, listingMap[m.id]), code) else []
  }

  /** The inner loop keeps the defaultdict equal to what the earlier methods
      and the first `j + 1` countries of `m`'s zone put there. */
  lemma CountryStep<D>(before: map<string, seq<D>>, prev: map<string, seq<D>>, next: map<string, seq<D>>,
                       m: ShippingMethod, listingMap: map<int, Listing>, cs: seq<Country>, j: nat,
                       convert: (ShippingMethod, Listing) -> D)
    requires j < |cs|
    requires forall code :: Lookup(prev, code) == Lookup(before, code) + Partial(m, listingMap, cs[..j], convert, code)
    requires next == if m.id in listingMap
                     then prev[cs[j].code := Lookup(prev, cs[j].code) + [convert(m, listingMap[m.id])]]
                     else prev
    ensures forall code :: Lookup(next, code) == Lookup(before, code) + Partial(m, listingMap, cs[..j + 1], convert, code)
  {
    assert cs[..j + 1][..j] == cs[..j];
    forall code
      ensures Lookup(next, code) == Lookup(before, code) + Partial(m, listingMap, cs[..j + 1], convert, code)
    {
      var p := Partial(m, listingMap, cs[..j], convert, code);
      if m.id in listingMap && cs[j].code == code {
        var d := convert(m, listingMap[m.id]);
        assert Partial(m, listingMap, cs[..j + 1], convert, code) == p + [d];
        assert Lookup(next, code) == Lookup(prev, code) + [d];
        assert (Lookup(before, code) + p) + [d] == Lookup(before, code) + (p + [d]);
      } else {
        assert Partial(m, listingMap, cs[..j + 1], convert, code) == p;
        assert Lookup(next, code) == Lookup(prev, code);
      }
    }
  }

  /** Appending to the list of the next zone country's code adds that code to
      the key order when it is new. */
  lemma KeyStep(codes0: seq<string>, codes: seq<string>, cs: seq<Country>, j: nat)
    requires j < |cs|
    requires codes == AddNew(codes0, CountryCodes(cs[..j]))
    ensures AddNew(codes0, CountryCodes(cs[..j + 1]))
            == if cs[j].code in codes then codes else codes + [cs[j].code]
  {
    assert CountryCodes(cs[..j + 1])[..j] == CountryCodes(cs[..j]);
  }

  /** The outer loop keeps the defaultdict equal to `Group` of the methods seen. */
  lemma MethodStep<D>(methods: seq<ShippingMethod>, i: nat, listingMap: map<int, Listing>,
                      zoneCountries: map<int, seq<Country>>, convert: (ShippingMethod, Listing) -> D,
                      before: map<string, seq<D>>, after: map<string, seq<D>>)
    requires i < |methods|
    requires forall code :: Lookup(before, code) == Group(methods[..i], listingMap, zoneCountries, convert, code)
    requires forall code :: Lookup(after, code) == Lookup(before, code)
               + Partial(methods[i], listingMap, ZoneCountriesOf(zoneCountries, methods[i]), convert, code)
    ensures forall code :: Lookup(after, code) == Group(methods[..i + 1], listingMap, zoneCountries, convert, code)
  {
    forall code ensures Lookup(after, code) == Group(methods[..i + 1], listingMap, zoneCountries, convert, code) {
      assert methods[..i + 1][..i] == methods[..i];
    }
  }

  /** `perCountry[code].append(d)` on the defaultdict keeps the key bookkeeping. */
  lemma AppendKeepsKeysTracked<D>(perCountry: map<string, seq<D>>, codes: seq<string>, code: string, d: D)
    requires KeysTracked(perCountry, codes)
    ensures KeysTracked(perCountry[code := Lookup(perCountry, code) + [d]],
                        if code in perCountry then codes else codes + [code])
  {
  }

  /** The entry the result holds for `code` when it holds one. */
  function Expected<D>(methods: seq<ShippingMethod>, listings: seq<Listing>,
                       zoneCountries: map<int, seq<Country>>,
                       convert: (ShippingMethod, Listing) -> D, code: string): ShippingMethodsPerCountry<D>
  {
    ShippingMethodsPerCountry(code, Group(methods, ListingMap(listings), zoneCountries, convert, code))
  }

  /** How many entries for `code` the result holds. */
  function ExpectedCount<D>(methods: seq<ShippingMethod>, listings: seq<Listing>,
                            zoneCountries: map<int, seq<Country>>, requested: seq<string>,
                            convert: (ShippingMethod, Listing) -> D, code: string): nat
  {
    if Group(methods, ListingMap(listings), zoneCountries, convert, code) == [] then 0
    else if requested != [] then multiset(requested)[code]
    else 1
  }

  /** Once the defaultdict agrees with `Group` on every code, each entry of a
      permutation of either comprehension carries its code's group. */
  lemma EntriesMatchGroups<D>(
    methods: seq<ShippingMethod>, listings: seq<Listing>,
    zoneCountries: map<int, seq<Country>>, convert: (ShippingMethod, Listing) -> D,
    perCountry: map<string, seq<D>>, unsorted: seq<ShippingMethodsPerCountry<D>>,
    results: seq<ShippingMethodsPerCountry<D>>)
    requires forall code :: Lookup(perCountry, code) == Group(methods, ListingMap(listings), zoneCountries, convert, code)
    requires forall code :: code in perCountry ==> perCountry[code] != []
    requires forall e :: e in unsorted ==> e.countryCode in perCountry && e.shippingMethods == perCountry[e.countryCode]
    requires multiset(results) == multiset(unsorted)
    ensures forall e :: e in results ==>
              e == Expected(methods, listings, zoneCountries, convert, e.countryCode) && e.shippingMethods != []
  {
    forall e | e in results
      ensures e == Expected(methods, listings, zoneCountries, convert, e.countryCode) && e.shippingMethods != []
    {
      assert e in multiset(unsorted);
      assert Lookup(perCountry, e.countryCode) == perCountry[e.countryCode];
    }
  }

  /** Once the defaultdict agrees with `Group` on every code, a permutation of
      the comprehension holds each code's entry as often as promised. */
  lemma CountsMatchGroups<D>(
    methods: seq<ShippingMethod>, listings: seq<Listing>,
    zoneCountries: map<int, seq<Country>>, requested: seq<string>,
    convert: (ShippingMethod, Listing) -> D,
    perCountry: map<string, seq<D>>, codes: seq<string>,
    results: seq<ShippingMethodsPerCountry<D>>)
    requires forall code :: Lookup(perCountry, code) == Group(methods, ListingMap(listings), zoneCountries, convert, code)
    requires KeysTracked(perCountry, codes)
    requires multiset(results) == multiset(if requested != [] then RequestedEntries(requested, perCountry)
                                           else AllEntries(codes, perCountry))
    ensures forall code ::
              multiset(results)[Expected(methods, listings, zoneCountries, convert, code)]
              == ExpectedCount(methods, listings, zoneCountries, requested, convert, code)
  {
    forall code
      ensures multiset(results)[Expected(methods, listings, zoneCountries, convert, code)]
              == ExpectedCount(methods, listings, zoneCountries, requested, convert, code)
    {
      var e := ShippingMethodsPerCountry(code, Lookup(perCountry, code));
      assert Expected(methods, listings, zoneCountries, convert, code) == e;
      if requested != [] {
        assert multiset(results)[e] == multiset(RequestedEntries(requested, perCountry))[e];
      } else {
        assert multiset(results)[e] == multiset(AllEntries(codes, perCountry))[e];
        DistinctCountAtMostOne(codes, code);
      }
    }
  }

  /**
   * The inner loop of `_group_shipping_methods_by_country`: for each country
   * of the method's zone, append the converted method to that country's list
   * when the method has a listing.
   */
  method AppendToCountries<D>(
    perCountry0: map<string, seq<D>>, codes0: seq<string>, m: ShippingMethod, countries: seq<Country>,
    listingMap: map<int, Listing>, convert: (ShippingMethod, Listing) -> D)
    returns (perCountry: map<string, seq<D>>, codes: seq<string>)
    requires KeysTracked(perCountry0, codes0)
    ensures forall code :: Lookup(perCountry, code) == Lookup(perCountry0, code) + Partial(m, listingMap, countries, convert, code)
    ensures KeysTracked(perCountry, codes)
    ensures codes == AddNew(codes0, if m.id in listingMap then CountryCodes(countries) else [])
  {
    perCountry, codes := perCountry0, codes0;
    for j := 0 to |countries|
      invariant forall code ::
                  Lookup(perCountry, code) == Lookup(perCountry0, code) + Partial(m, listingMap, countries[..j], convert, code)
      invariant KeysTracked(perCountry, codes)
      invariant codes == AddNew(codes0, if m.id in listingMap then CountryCodes(countries[..j]) else [])
    {
      ghost var prev := perCountry;
      var listed := m.id in listingMap;
      if listed {
        var d := convert(m, listingMap[m.id]);
        var code := countries[j].code;
        AppendKeepsKeysTracked(perCountry, codes, code, d);
        KeyStep(codes0, codes, countries, j);
        if code !in perCountry {
          codes := codes + [code];
        }
        perCountry := perCountry[code := Lookup(perCountry, code) + [d]];
      }
      CountryStep(perCountry0, prev, perCountry, m, listingMap, countries, j, convert);
    }
    assert countries[..|countries|] == countries;
  }

  /**
   * The nested loops of `_group_shipping_methods_by_country` that fill the
   * `shipping_methods_per_country` defaultdict. `codes` is the dict's key
   * order; every code's list is what `Group` says.
   */
  method CollectShippingMethodsPerCountry<D>(
    methods: seq<ShippingMethod>, listingMap: map<int, Listing>,
    zoneCountries: map<int, seq<Country>>, convert: (ShippingMethod, Listing) -> D)
    returns (perCountry: map<string, seq<D>>, codes: seq<string>)
    ensures forall code :: Lookup(perCountry, code) == Group(methods, listingMap, zoneCountries, convert, code)
    ensures forall code :: code in perCountry <==> code in codes
    ensures forall code :: code in perCountry ==> perCountry[code] != []
    ensures Distinct(codes)
    ensures codes == KeyOrder(methods, listingMap, zoneCountries)
  {
    perCountry := map[];
    codes := [];
    for i := 0 to |methods|
      invariant forall code :: Lookup(perCountry, code) == Group(methods[..i], listingMap, zoneCountries, convert, code)
      invariant KeysTracked(perCountry, codes)
      invariant codes == KeyOrder(methods[..i], listingMap, zoneCountries)
    {
      assert methods[..i + 1][..i] == methods[..i];
      var m := methods[i];
      var countries := if m.shippingZoneId in zoneCountries then zoneCountries[m.shippingZoneId] else [];
      ghost var before := perCountry;
      perCountry, codes := AppendToCountries(perCountry, codes, m, countries, listingMap, convert);
      MethodStep(methods, i, listingMap, zoneCountries, convert, before, perCountry);
    }
    assert methods[..|methods|] == methods;
  }

  /** The sort key `item["country_code"]`. */
  function CodeKey<D>(e: ShippingMethodsPerCountry<D>): string {
    e.countryCode
  }

  /** What `_group_shipping_methods_by_country` promises of `results`: entries
      sorted by country code; each entry a code with its non-empty group; each
      code with methods present as often as it was requested, or once when
      nothing was requested, and a code without methods absent. */
  ghost predicate IsGrouping<D>(methods: seq<ShippingMethod>, listings: seq<Listing>,
                                zoneCountries: map<int, seq<Country>>, requested: seq<string>,
                                convert: (ShippingMethod, Listing) -> D,
                                results: seq<ShippingMethodsPerCountry<D>>)
  {
    && SortedBy(results, CodeKey)
    && (forall e :: e in results ==>
          e == Expected(methods, listings, zoneCountries, convert, e.countryCode) && e.shippingMethods != [])
    && (forall code ::
          multiset(results)[Expected(methods, listings, zoneCountries, convert, code)]
          == ExpectedCount(methods, listings, zoneCountries, requested, convert, code))
  }

  /** The promise leaves no freedom: two results that keep it are equal. */
  lemma GroupingUnique<D>(methods: seq<ShippingMethod>, listings: seq<Listing>,
                          zoneCountries: map<int, seq<Country>>, requested: seq<string>,
                          convert: (ShippingMethod, Listing) -> D,
                          r1: seq<ShippingMethodsPerCountry<D>>, r2: seq<ShippingMethodsPerCountry<D>>)
    requires IsGrouping(methods, listings, zoneCountries, requested, convert, r1)
    requires IsGrouping(methods, listings, zoneCountries, requested, convert, r2)
    ensures r1 == r2
  {
    forall e ensures multiset(r1)[e] == multiset(r2)[e] {
      if e != Expected(methods, listings, zoneCountries, convert, e.countryCode) {
        assert e !in r1 && e !in r2;
      }
    }
    assert multiset(r1) == multiset(r2);
    SortedPermutationsEqual(r1, r2, CodeKey);
  }

  /**
   * `_group_shipping_methods_by_country`: the defaultdict filled by the nested
   * loops, one of the two comprehensions, then the sort by country code.
   */
  method GroupShippingMethodsByCountry<D>(
    methods: seq<ShippingMethod>, listings: seq<Listing>,
    zoneCountries: map<int, seq<Country>>, requested: seq<string>,
    convert: (ShippingMethod, Listing) -> D)
    returns (results: seq<ShippingMethodsPerCountry<D>>)
    ensures IsGrouping(methods, listings, zoneCountries, requested, convert, results)
  {
    var listingMap := ListingMap(listings);
    var perCountry, codes := CollectShippingMethodsPerCountry(methods, listingMap, zoneCountries, convert);
    var unsorted := if requested != [] then RequestedEntries(requested, perCountry) else AllEntries(codes, perCountry);
    results := SortBy(unsorted, CodeKey);
    EntriesMatchGroups(methods, listings, zoneCountries, convert, perCountry, unsorted, results);
    CountsMatchGroups(methods, listings, zoneCountries, requested, convert, perCountry, codes, results);
  }
}
