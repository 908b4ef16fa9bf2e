/** `createTokensAndPricing`: the datatoken parameters shared by both pricing
    strategies, the strategy-specific exchange parameters, and the single
    factory call that creates NFT, datatoken and exchange together. */
module Pricing {
  import opened Common
  import opened Json
  import opened Config
  import opened Ddo

  /** Datatoken creation parameters. `cap` is the decimal number the source
      passes as a string. */
  datatype DatatokenCreateParams = DatatokenCreateParams(
    templateIndex: nat,
    minter: string,
    paymentCollector: string,
    mpFeeAddress: string,
    feeToken: string,
    feeAmount: string,
    cap: nat,
    name: string,
    symbol: string)

  /** Fixed-rate exchange creation parameters. */
  datatype FreCreationParams = FreCreationParams(
    fixedRateAddress: string,
    baseTokenAddress: string,
    owner: string,
    marketFeeCollector: string,
    baseTokenDecimals: nat,
    datatokenDecimals: nat,
    fixedRate: string,
    marketFee: string,
    withMint: bool)

  /** Dispenser creation parameters. */
  datatype DispenserCreationParams = DispenserCreationParams(
    dispenserAddress: string,
    maxTokens: string,
    maxBalance: string,
    withMint: bool,
    allowedSwapper: string)

  /** The factory call a pricing choice leads to; `NoCall` for an unknown kind. */
  datatype PricingCall =
    | FixedRateCall(nft: Json, erc: DatatokenCreateParams, fre: FreCreationParams)
    | DispenserCall(nft: Json, erc: DatatokenCreateParams, dispenser: DispenserCreationParams)
    | NoCall

  /** The addresses the factory reports and the transaction hash. */
  datatype FactoryReceipt = FactoryReceipt(nftAddress: string, datatokenAddress: string, transactionHash: string)

  /** The NFT factory's two creation calls; `None` when the transaction fails. */
  datatype NftFactory = NftFactory(
    withFixedRate: (string, Json, DatatokenCreateParams, FreCreationParams) -> Option<FactoryReceipt>,
    withDispenser: (string, Json, DatatokenCreateParams, DispenserCreationParams) -> Option<FactoryReceipt>)

  datatype PricingResult = PricingResult(erc721Address: Option<string>, datatokenAddress: Option<string>, txHash: Option<string>)

  datatype ProvisioningError = ProvisioningFailed

  /** The datatoken supply cap: floor(2^256 / 10^18), the largest whole-token
      amount whose 18-decimal base-unit value fits in 256 bits. */
  const MaxDatatokenCap: nat := 115792089237316195423570985008687907853269984665640564039457
  /** One token in base units, 10^18. */
  const OneTokenInWei := "1000000000000000000"
  const ZeroAddress := "0x0000000000000000000000000000000000000000"
  const DatatokenDecimals: nat := 18
  const FixedKind := "fixed"
  const FreeKind := "free"

  /** `ercParams`: the same for both strategies; fees and their collector come
      from configuration, minter and payment collector are the publisher. */
  function DatatokenParams(values: FormPublishData, accountId: string, cfg: AppConfig): (r: DatatokenCreateParams)
    requires |values.services| > 0
    ensures r.templateIndex == cfg.defaultDatatokenTemplateIndex
    ensures r.minter == accountId && r.paymentCollector == accountId
    ensures r.mpFeeAddress == cfg.marketFeeAddress && r.feeAmount == cfg.publisherMarketOrderFee
    ensures r.feeToken == values.pricing.baseToken.address
    ensures r.cap == MaxDatatokenCap
    ensures r.name == values.services[0].dataTokenOptions.name && r.symbol == values.services[0].dataTokenOptions.symbol
  {
    DatatokenCreateParams(
      templateIndex := cfg.defaultDatatokenTemplateIndex,
      minter := accountId,
      paymentCollector := accountId,
      mpFeeAddress := cfg.marketFeeAddress,
      feeToken := values.pricing.baseToken.address,
      feeAmount := cfg.publisherMarketOrderFee,
      cap := MaxDatatokenCap,
      name := values.services[0].dataTokenOptions.name,
      symbol := values.services[0].dataTokenOptions.symbol)
  }

  /** The factory call `values.pricing.type` selects. */
  function PlanPricing(values: FormPublishData, accountId: string, cfg: AppConfig, chain: ChainConfig, collab: Collaborators): (r: PricingCall)
    requires |values.services| > 0
    ensures r.FixedRateCall? <==> values.pricing.kind == FixedKind
    ensures r.DispenserCall? <==> values.pricing.kind == FreeKind
    ensures !r.NoCall? ==> r.erc == DatatokenParams(values, accountId, cfg)
    ensures !r.NoCall? ==> r.nft == collab.nftCreateData(values.metadata.nft, accountId, Some(values.metadata.transferable))
    ensures r.FixedRateCall? ==>
              && r.fre.fixedRateAddress == chain.fixedRateExchangeAddress
              && r.fre.baseTokenAddress == values.pricing.baseToken.address
              && r.fre.baseTokenDecimals == values.pricing.baseToken.decimals
              && r.fre.owner == accountId
              && r.fre.marketFeeCollector == cfg.marketFeeAddress
              && r.fre.datatokenDecimals == DatatokenDecimals
              && r.fre.fixedRate == collab.numberToString(values.pricing.price)
              && r.fre.marketFee == cfg.publisherMarketFixedSwapFee
              && r.fre.withMint
    ensures r.DispenserCall? ==>
              r.dispenser == DispenserCreationParams(chain.dispenserAddress, OneTokenInWei, OneTokenInWei, true, ZeroAddress)
  {
    var nft := collab.nftCreateData(values.metadata.nft, accountId, Some(values.metadata.transferable));
    var erc := DatatokenParams(values, accountId, cfg);
    if values.pricing.kind == FixedKind then
      FixedRateCall(nft, erc, FreCreationParams(
        fixedRateAddress := chain.fixedRateExchangeAddress,
        baseTokenAddress := values.pricing.baseToken.address,
        owner := accountId,
        marketFeeCollector := cfg.marketFeeAddress,
        baseTokenDecimals := values.pricing.baseToken.decimals,
        datatokenDecimals := DatatokenDecimals,
        fixedRate := collab.numberToString(values.pricing.price),
        marketFee := cfg.publisherMarketFixedSwapFee,
        withMint := true))
    else if values.pricing.kind == FreeKind then
      DispenserCall(nft, erc, DispenserCreationParams(
        dispenserAddress := chain.dispenserAddress,
        maxTokens := OneTokenInWei,
        maxBalance := OneTokenInWei,
        withMint := true,
        allowedSwapper := ZeroAddress))
    else NoCall
  }

  /** `createTokensAndPricing`: one factory call for a known strategy, all
      three result fields `undefined` for any other; a failed transaction
      rejects, leaving no result to persist. */
  function CreateTokensAndPricing(values: FormPublishData, accountId: string, cfg: AppConfig, chain: ChainConfig,
                                  collab: Collaborators, factory: NftFactory): (r: Result<PricingResult, ProvisioningError>)
    requires |values.services| > 0
    ensures values.pricing.kind != FixedKind && values.pricing.kind != FreeKind ==>
              r == Success(PricingResult(None, None, None))
    ensures r.Success? && (values.pricing.kind == FixedKind || values.pricing.kind == FreeKind) ==>
              r.value.erc721Address.Some? && r.value.datatokenAddress.Some? && r.value.txHash.Some?
    ensures values.pricing.kind == FixedKind ==>
              var call := PlanPricing(values, accountId, cfg, chain, collab);
              var receipt := factory.withFixedRate(accountId, call.nft, call.erc, call.fre);
              (receipt.None? ==> r.Failure?)
              && (receipt.Some? ==> r == Success(PricingResult(Some(receipt.value.nftAddress),
                                      Some(receipt.value.datatokenAddress), Some(receipt.value.transactionHash))))
    ensures values.pricing.kind == FreeKind ==>
              var call := PlanPricing(values, accountId, cfg, chain, collab);
              var receipt := factory.withDispenser(accountId, call.nft, call.erc, call.dispenser);
              (receipt.None? ==> r.Failure?)
              && (receipt.Some? ==> r == Success(PricingResult(Some(receipt.value.nftAddress),
                                      Some(receipt.value.datatokenAddress), Some(receipt.value.transactionHash))))
  {
    match PlanPricing(values, accountId, cfg, chain, collab)
    case FixedRateCall(nft, erc, fre) => Provisioned(factory.withFixedRate(accountId, nft, erc, fre))
    case DispenserCall(nft, erc, dispenser) => Provisioned(factory.withDispenser(accountId, nft, erc, dispenser))
    case NoCall => Success(PricingResult(None, None, None))
  }

  /** The three result fields read from a factory receipt; a failed transaction rejects. */
  function Provisioned(receipt: Option<FactoryReceipt>): (r: Result<PricingResult, ProvisioningError>)
    ensures r.Failure? <==> receipt.None?
    ensures r.Success? ==> r.value.erc721Address == Some(receipt.value.nftAddress)
                           && r.value.datatokenAddress == Some(receipt.value.datatokenAddress)
                           && r.value.txHash == Some(receipt.value.transactionHash)
  {
    match receipt
    case None => Failure(ProvisioningFailed)
    case Some(rc) => Success(PricingResult(Some(rc.nftAddress), Some(rc.datatokenAddress), Some(rc.transactionHash)))
  }

  /** Fees, fee collector, supply cap and dispenser caps do not depend on what
      the publisher typed: two forms with the same strategy get the same values. */
  lemma PricingConstantsIgnoreForm(v1: FormPublishData, v2: FormPublishData, accountId: string, cfg: AppConfig,
                                   chain: ChainConfig, collab: Collaborators)
    requires |v1.services| > 0 && |v2.services| > 0
    requires v1.pricing.kind == v2.pricing.kind
    ensures var c1 := PlanPricing(v1, accountId, cfg, chain, collab);
            var c2 := PlanPricing(v2, accountId, cfg, chain, collab);
            && (!c1.NoCall? ==> c1.erc.feeAmount == c2.erc.feeAmount && c1.erc.mpFeeAddress == c2.erc.mpFeeAddress
                                && c1.erc.cap == c2.erc.cap && c1.erc.templateIndex == c2.erc.templateIndex)
            && (c1.FixedRateCall? ==> c1.fre.marketFee == c2.fre.marketFee && c1.fre.marketFeeCollector == c2.fre.marketFeeCollector)
            && (c1.DispenserCall? ==> c1.dispenser == c2.dispenser)
  {
  }
}
