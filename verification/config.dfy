/** Process-wide configuration the publication code reads, passed in as data
    instead of being read from module-level constants. */
module Config {
  import opened Common

  /** A docker container an algorithm runs in; also the shape of an entry of
      the container preset catalog. */
  datatype Container = Container(entrypoint: string, image: string, tag: string, checksum: Option<string>)

  /** The application constants: fee collector and fees, the datatoken
      template, the default access terms, the compliance registry's latest
      API version, and the container preset catalog. */
  datatype AppConfig = AppConfig(
    marketFeeAddress: string,
    publisherMarketOrderFee: string,
    publisherMarketFixedSwapFee: string,
    defaultDatatokenTemplateIndex: nat,
    defaultAccessTerms: string,
    complianceApiVersion: string,
    algorithmContainerPresets: seq<Container>)

  /** Contract addresses of the connected chain. */
  datatype ChainConfig = ChainConfig(fixedRateExchangeAddress: string, dispenserAddress: string)
}
