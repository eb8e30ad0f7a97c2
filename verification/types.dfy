/** The records exchanged with the energy-charts price API (src/types.ts). */
module Types {
  import opened Wrappers

  /** Query of a price request; an absent field is JavaScript's undefined. */
  datatype PriceRequestParams = PriceRequestParams(
    bzn: Option<string>, start: Option<string>, end: Option<string>)

  /** Body of the /price endpoint: index-aligned Unix seconds and prices in
      EUR/MWh. Prices are JavaScript Numbers, modelled as reals. */
  datatype PriceResponse = PriceResponse(
    licenseInfo: string,
    unixSeconds: seq<int>,
    price: seq<real>,
    unit: string,
    deprecated: bool)
}
