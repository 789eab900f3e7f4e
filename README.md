# Channel shipping countries and shipping methods per country

A Dafny model of the two data-shaping helpers of saleor's channel GraphQL
type:

- `Channel.resolve_countries` and its local function `get_countries`. It
  gathers the countries of every shipping zone of the channel, drops
  duplicates, sorts them by country name and returns `CountryDisplay`
  pairs (code, name).
- `Channel.resolve_available_shipping_methods_per_country`. It fills a map
  from zone id to the zone's countries (`get_shipping_methods`). Then
  `_group_shipping_methods_by_country` groups the channel's shipping methods
  by country code. A method counts only when it has a channel listing. The
  result can be restricted to the requested country codes and is sorted by
  country code.

The model takes the data loaders' results as plain inputs.

Files:

- `sorting.dfy` (module `Sorting`): Python's `str` ordering (`LexLe`,
  lexicographic by code point). It is proved reflexive, total, transitive
  and antisymmetric. `SortBy` is the stable `list.sort(key=...)`; its result
  is proved sorted and a permutation of its input. Two sorted permutations
  are proved equal when no two distinct elements share a key.
- `sequences.dfy` (module `Sequences`): facts about sequences without
  repeats.
- `shipping_data.dfy` (module `ShippingData`): the records the resolvers
  read: `Country`, `ShippingZone`, `ShippingMethod`,
  `ShippingMethodChannelListing`, `CountryDisplay`, and
  `ShippingMethodsPerCountry`.
- `countries.dfy` (module `ChannelCountries`): `get_countries`, as the
  method `GetCountries`. Its first loop is the source's `extend` loop. Its
  second loop draws the elements of the set for `list(set(countries))`.
- `shipping_methods.dfy` (module `ChannelShippingMethods`):
  - the listing-map comprehension (`ListingMap`);
  - the zone-map loop (`BuildZoneCountries`);
  - the grouping (`GroupShippingMethodsByCountry`, whose nested loops are
    `CollectShippingMethodsPerCountry` and `AppendToCountries`);
  - the reference function `Group`, which gives, per country code, the list
    the grouping must produce, and the lemmas about it.

### Design

- `convert_to_shipping_method_data` is not part of this model. It becomes
  the parameter `convert: (ShippingMethod, Listing) -> D`: an arbitrary
  function, with `D` its result type.
- Python `defaultdict(list)` becomes a `map<string, seq<D>>` with `Lookup`
  for `.get(code, [])`. The dict's key order is kept as a sequence `codes`
  beside it.
- `set(countries)` is a Dafny set. `list(set(...))` takes its elements in
  an unspecified order (`:|`), so countries with equal names may come out
  in any order.
- A country is its ISO code, as django_countries compares and hashes it.
  Its name is looked up in a name table, the parameter
  `names: string -> string`. The display pair and the sort key
  `country.name` both read that table.
- A listing is "missing" exactly when the method id is not a key of the
  listing map: a model instance is always truthy.
- `requested_countries` absent, `None` or empty all take the "all codes"
  branch. The model writes them as the empty sequence.

### What is proved

- `GetCountries` returns each country of some zone exactly once, and
  nothing else, with its name. No code repeats. The entries come in
  non-decreasing name order.
- In the listing map, a method's last listing wins. In the zone map, a
  later zone with the same id overwrites an earlier one.
- For every country code, the list built by the nested loops equals
  `Group`. About `Group`:
  - a method without a listing contributes nothing;
  - a method whose zone is absent from the zone map contributes nothing;
  - a listed method contributes exactly one converted entry to each country
    of its zone, when the zone lists each code once;
  - each country's list keeps the input order of the methods.
- Every result entry is a code with its non-empty `Group`. With requested
  codes, a code with methods appears as often as it was requested, and an
  unrequested code does not appear. Without requested codes, each code with
  methods appears once. The result is sorted by code. These promises fix the
  result completely: any two results that keep them are equal.
- The dict's keys come in the order in which their codes first receive a
  method.

## Model

| member | source | states |
|---|---|---|
| `ChannelCountries.GetCountries` | saleor/graphql/channel/types.py:351-360 | the result holds the display pair of a country iff the country is in some zone; every entry is a zone country with that country's name; no code repeats; names are in non-decreasing order |
| `ChannelCountries.ConcatCountriesMembers` | saleor/graphql/channel/types.py:352-354 | the list built by extending with each zone's countries holds exactly the countries of the zones |
| `ChannelCountries.Displays` | saleor/graphql/channel/types.py:357-360 | the comprehension holds the display pair of exactly the countries of its input, each with its country's name; it repeats no code when the input repeats no country; it is in name order when the input is |
| `ChannelCountries.SortedDisplays` | saleor/graphql/channel/types.py:355-360 | sorting a repeat-free list of the zone countries by name and mapping it to (code, name) pairs keeps every country exactly once, repeats no code and orders the pairs by name |
| `Sorting.SortBy` | saleor/graphql/channel/types.py:356 | the sort returns a permutation of its input whose keys are in non-decreasing string order |
| `Sorting.SortedPermutationsEqual` | saleor/graphql/channel/types.py:427 | two sorted permutations of one another are equal when no two distinct elements share a key |
| `ChannelShippingMethods.ListingMap` | saleor/graphql/channel/types.py:389-392 | every key of the listing map maps to one of the given listings of that method |
| `ChannelShippingMethods.ListingMapLastWins` | saleor/graphql/channel/types.py:389-392 | a method id is a key of the listing map iff some listing names it, and its value is the last such listing in input order |
| `ChannelShippingMethods.BuildZoneCountries` | saleor/graphql/channel/types.py:440-443 | a zone id is a key of the zone map iff some zone has it, and its value is the countries of the last zone with that id |
| `ChannelShippingMethods.AppendToCountries` | saleor/graphql/channel/types.py:399-408 | for each country code, that code's list gets the method's converted value once per zone country with that code when the method has a listing; other codes' lists are unchanged; key bookkeeping is kept; the key order grows by the zone's new codes, in the order they are first appended to (`AddNew`) |
| `ChannelShippingMethods.AddNewFirstOccurrences` | saleor/graphql/channel/types.py:406-408 | appending to the lists of a sequence of codes keeps the earlier keys in front, adds exactly the new codes and repeats none |
| `ChannelShippingMethods.CollectShippingMethodsPerCountry` | saleor/graphql/channel/types.py:394-408 | after the nested loops every code's list equals `Group` of all methods; the keys are exactly the codes that received a method, all with non-empty lists, listed once each, in the order each first received a method (`KeyOrder`) |
| `ChannelShippingMethods.GroupShippingMethodsByCountry` | saleor/graphql/channel/types.py:387-429 | `IsGrouping`: the result is sorted by country code; each entry is a code with its non-empty `Group`; the number of entries for a code is 0 without methods, its count in the request when codes were requested, and 1 otherwise |
| `ChannelShippingMethods.GroupingUnique` | saleor/graphql/channel/types.py:410-429 | any two results that keep the `IsGrouping` promise are equal, so the promise determines the result |
| `ChannelShippingMethods.RequestedEntries` | saleor/graphql/channel/types.py:410-418 | the requested-codes comprehension gives each requested code that has methods as often as it was requested, with that code's list, and no other code |
| `ChannelShippingMethods.AllEntries` | saleor/graphql/channel/types.py:419-426 | the all-keys comprehension gives one entry per key occurrence, each carrying that key's list |
| `ChannelShippingMethods.EntriesMatchGroups` | saleor/graphql/channel/types.py:410-427 | after reordering, every entry of either comprehension carries its code's `Group`, which is non-empty |
| `ChannelShippingMethods.CountsMatchGroups` | saleor/graphql/channel/types.py:410-427 | after reordering, the result holds each code's entry as often as requested (or once without a request) exactly when the code has methods |
| `ChannelShippingMethods.GroupAppend` | saleor/graphql/channel/types.py:395-408 | the per-country list of a concatenation of method sequences is the concatenation of their lists, so appends happen in method order |
| `ChannelShippingMethods.UnlistedMethodContributesNothing` | saleor/graphql/channel/types.py:400-402 | removing a method that has no listing changes no country's list |
| `ChannelShippingMethods.ZonelessMethodContributesNothing` | saleor/graphql/channel/types.py:396-398 | removing a method whose zone id is not in the zone map changes no country's list |
| `ChannelShippingMethods.OccurrencesCount` | saleor/graphql/channel/types.py:399-408 | a listed method adds to a code's list exactly as many entries as its zone has countries with that code, all equal to its converted value |
| `ChannelShippingMethods.ListedMethodOncePerCountry` | saleor/graphql/channel/types.py:395-408 | a listed method in a mapped zone that lists each code once adds exactly one converted entry to each of its zone's countries, between the entries of the earlier and later methods, and none elsewhere |
| `ChannelShippingMethods.GroupInMethodOrder` | saleor/graphql/channel/types.py:395-408 | when zones list each code once, a country's list is the listed methods whose zone covers it, converted, in input order |

## Left out

- Data loaders and the `Promise.all` / `.then` chaining. This includes
  `ShippingZonesByChannelIdLoader`, the per-zone method loading, the
  `itertools.chain.from_iterable` flattening and the listing loader. The
  model takes the loaded zones, methods and listings as inputs.
- `convert_to_shipping_method_data` is not part of this model. It is the
  function parameter `convert`, left uninterpreted.
- django_countries' country-name table, with its translations, is not part
  of this model. It is the function parameter `names`.
- Graphene type and field declarations, permission-gated fields, relay ids,
  `is_type_of`, and the other trivial resolvers of the file. They are
  framework glue with no computation of their own.
- `RequestedEntries`: states the multiset of entries, not their order
  before sorting, because the sort that follows makes that order
  unobservable.
- `GetCountries`: leaves the relative order of different countries with
  the same name unconstrained, because it depends on the iteration order of
  a Python set.
- `Sorting.SortBy`: proves that the result is sorted and a permutation, not
  that it is stable. In both uses, elements with equal keys are either
  equal entries (a code requested twice) or come from an unordered set.
- `shipping_zones_keys` in `get_shipping_methods` only feeds the method
  loader, which is left out above.
- `ListedMethodOncePerCountry`, `GroupInMethodOrder`: assume each zone lists
  each country code once. Without that, `OccurrencesCount` gives the general
  count: one entry per matching country.
