/**
 * The records the two channel resolvers work on, reduced to the fields they
 * read. Identifiers are database primary keys; country codes are strings.
 */
module ShippingData {

  /** A country as stored in a zone's country field. It is identified by its
      ISO code alone; its name is looked up from the code (see `names` in
      `ChannelCountries`). */
  datatype Country = Country(code: string)

  /** A shipping zone: its id and the countries it covers, in stored order. */
  datatype ShippingZone = ShippingZone(id: int, countries: seq<Country>)

  /** A shipping method and the zone it belongs to. */
  datatype ShippingMethod = ShippingMethod(id: int, name: string, shippingZoneId: int)

  /** A channel listing of a shipping method (the channel's price for it). */
  datatype ShippingMethodChannelListing =
    ShippingMethodChannelListing(id: int, shippingMethodId: int, price: int)

  /** The `CountryDisplay` value returned to the API: a code and a country name. */
  datatype CountryDisplay = CountryDisplay(code: string, country: string)

  /** One entry of `availableShippingMethodsPerCountry`: a country code and the
      converted shipping methods available there. */
  datatype ShippingMethodsPerCountry<D> = ShippingMethodsPerCountry(countryCode: string, shippingMethods: seq<D>)
}
