/** The publish form, the metadata document (DDO) it becomes, and the
    transform between them (`transformPublishFormToDdo`). Library and network
    calls the transform makes are the function-valued fields of
    `Collaborators`. */
module Ddo {
  import opened Common
  import opened Json
  import opened Config
  import Normalize

  // ---------------------------------------------------------------------
  // The form snapshot

  datatype AssetType = Dataset | Algorithm

  /** The service kinds a publisher can choose: 'access' or 'compute'. */
  datatype ServiceType = Access | Compute

  /** A file or link entry of the form, with the form's validity flag. */
  datatype FileInfo = FileInfo(fileType: string, url: string, valid: bool)

  /** A trust credential given by reference (`url`) or inline (`raw`). */
  datatype ServiceCredential = ServiceCredential(raw: Option<string>, url: Option<string>)

  datatype User = User(chainId: int, accountId: string)

  datatype GaiaXForm = GaiaXForm(
    termsAndConditions: Option<seq<FileInfo>>,
    containsPII: bool,
    piiInformation: Option<Json>,
    serviceSD: Option<ServiceCredential>)

  datatype MetadataForm = MetadataForm(
    assetType: AssetType,
    name: string,
    description: string,
    tags: Option<seq<string>>,
    author: string,
    license: Option<string>,
    termsAndConditions: bool,
    dockerImage: string,
    dockerImageCustom: string,
    dockerImageCustomTag: string,
    dockerImageCustomEntrypoint: string,
    dockerImageCustomChecksum: Option<string>,
    gaiaXInformation: GaiaXForm,
    nft: Json,
    transferable: bool)

  datatype DatatokenOptions = DatatokenOptions(name: string, symbol: string)

  datatype ServiceForm = ServiceForm(
    access: ServiceType,
    files: seq<FileInfo>,
    links: Option<seq<FileInfo>>,
    providerUrl: string,
    timeout: string,
    computeOptions: Json,
    dataTokenOptions: DatatokenOptions)

  datatype BaseToken = BaseToken(address: string, decimals: nat)

  /** The pricing choice; `kind` is 'fixed' or 'free' in a well-formed form. */
  datatype PricingForm = PricingForm(kind: string, price: real, baseToken: BaseToken)

  datatype FormPublishData = FormPublishData(
    user: User,
    metadata: MetadataForm,
    services: seq<ServiceForm>,
    pricing: PricingForm)

  // ---------------------------------------------------------------------
  // The metadata document

  /** The Gaia-X terms URL: the sanitised form entry, or the default terms. */
  datatype TermsUrl = SanitizedUrls(urls: seq<string>) | DefaultTerms(url: string)

  datatype PiiInfo = PiiInfo(containsPII: bool, piiInformation: Option<Json>)

  datatype GaiaXInformation = GaiaXInformation(
    termsAndConditions: seq<TermsUrl>,
    pii: Option<PiiInfo>,
    serviceSD: Option<ServiceCredential>,
    serviceSelfDescription: Option<ServiceCredential>)

  datatype AdditionalInformation = AdditionalInformation(termsAndConditions: bool, gaiaXInformation: GaiaXInformation)

  datatype AlgorithmInfo = AlgorithmInfo(language: string, version: string, container: Container)

  datatype Metadata = Metadata(
    created: string,
    updated: string,
    assetType: AssetType,
    name: string,
    description: string,
    tags: Option<seq<string>>,
    author: string,
    license: string,
    links: Option<seq<string>>,
    additionalInformation: AdditionalInformation,
    algorithm: Option<AlgorithmInfo>)

  datatype Service = Service(
    id: string,
    serviceType: ServiceType,
    files: string,
    datatokenAddress: Option<string>,
    serviceEndpoint: string,
    timeout: int,
    compute: Option<Json>)

  /** The synthetic fields a preview carries in place of on-chain data. */
  datatype PreviewFields = PreviewFields(datatokens: seq<DatatokenOptions>, nft: Json)

  datatype DDO = DDO(
    context: seq<string>,
    id: string,
    nftAddress: Option<string>,
    version: string,
    chainId: int,
    metadata: Metadata,
    services: seq<Service>,
    preview: Option<PreviewFields>)

  // ---------------------------------------------------------------------
  // Collaborators and errors

  /** What is sent to the provider for encryption. */
  datatype EncryptRequest = EncryptRequest(nftAddress: Option<string>, datatokenAddress: Option<string>, files: seq<Json>)

  /** The value the service id is hashed from. JavaScript's `+` concatenates
      when either operand is a string; adding `undefined` to `false` is
      numeric addition and yields `NaN`. */
  datatype HashInput = Text(s: string) | NotANumber

  /** Library functions and network calls, left uninterpreted.
      `containerChecksum` gives the `checksum` field of the registry's answer;
      `encryptFiles` gives `None` when the encryption call rejects. */
  datatype Collaborators = Collaborators(
    sanitizeUrl: string -> string,
    slugify: string -> string,
    generateDid: (string, int) -> string,
    getHash: HashInput -> string,
    timeoutToSeconds: string -> int,
    normalizeFile: (string, FileInfo, int) -> Json,
    nftCreateData: (Json, string, Option<bool>) -> Json,
    numberToString: real -> string,
    containerChecksum: (string, string) -> Option<string>,
    encryptFiles: (EncryptRequest, int, string) -> Option<string>)

  datatype PublishError = EncryptionUnavailable

  const DidContext: seq<string> := ["https://w3id.org/did/v1"]
  const DdoVersion := "4.1.0"
  const PreviewDid := "0x..."
  const MarketTermsUrl := "https://market.oceanprotocol.com/terms"
  const AlgorithmVersion := "0.1"
  const CustomImage := "custom"

  // ---------------------------------------------------------------------
  // The transform

  /** A token address that was passed (JavaScript truthiness: not `undefined`, not ''). */
  predicate Present(address: Option<string>) {
    address.Some? && address.value != ""
  }

  /** No token address was passed: the document is for review only. */
  predicate IsPreview(datatokenAddress: Option<string>, nftAddress: Option<string>) {
    !Present(datatokenAddress) && !Present(nftAddress)
  }

  /** The text JavaScript gives an optional string when concatenating it. */
  function JsText(v: Option<string>): string {
    match v
    case None => "undefined"
    case Some(s) => s
  }

  /** The sum of the datatoken address (a string or `undefined`) and the
      encryption outcome (the ciphertext, or `false` when nothing was
      encrypted), as JavaScript's `+` computes it. */
  function ServiceIdInput(datatokenAddress: Option<string>, filesEncrypted: Option<string>): (h: HashInput)
    ensures h.NotANumber? <==> datatokenAddress.None? && filesEncrypted.None?
    ensures datatokenAddress.Some? ==> h == Text(datatokenAddress.value + filesEncrypted.GetOr("false"))
    ensures datatokenAddress.None? && filesEncrypted.Some? ==> h == Text("undefined" + filesEncrypted.value)
  {
    if datatokenAddress.None? && filesEncrypted.None? then NotANumber
    else Text(JsText(datatokenAddress) + filesEncrypted.GetOr("false"))
  }

  /** The sanitised first URL, as a one-element list, when the list is present,
      non-empty and its first entry valid; every other outcome is `None`. */
  function FirstValidUrl(sanitizeUrl: string -> string, files: Option<seq<FileInfo>>): (r: Option<seq<string>>)
    ensures r.Some? <==> files.Some? && |files.value| > 0 && files.value[0].valid
    ensures r.Some? ==> r.value == [sanitizeUrl(files.value[0].url)]
  {
    if files.Some? && |files.value| > 0 && files.value[0].valid then Some([sanitizeUrl(files.value[0].url)])
    else None
  }

  /** A catalog entry is named `image:tag`. */
  function PresetName(p: Container): string {
    p.image + ":" + p.tag
  }

  /** The first catalog entry named `dockerImage`. */
  function FindPreset(presets: seq<Container>, dockerImage: string): (r: Option<Container>)
    ensures r.None? <==> forall k :: 0 <= k < |presets| ==> PresetName(presets[k]) != dockerImage
    ensures r.Some? ==> exists k :: 0 <= k < |presets| && presets[k] == r.value
                          && PresetName(presets[k]) == dockerImage
                          && forall j :: 0 <= j < k ==> PresetName(presets[j]) != dockerImage
  {
    if |presets| == 0 then None
    else if PresetName(presets[0]) == dockerImage then Some(presets[0])
    else
      var r := FindPreset(presets[1..], dockerImage);
      assert forall k :: 1 <= k < |presets| ==> presets[k] == presets[1..][k - 1];
      r
  }

  /** `getAlgorithmContainerPreset`: the preset named `dockerImage` with its
      checksum replaced by the registry's. The catalog must hold such a preset. */
  function AlgorithmContainerPreset(presets: seq<Container>, dockerImage: string, collab: Collaborators): (r: Option<Container>)
    requires dockerImage != "" ==> exists k :: 0 <= k < |presets| && PresetName(presets[k]) == dockerImage
    ensures r.None? <==> dockerImage == ""
    ensures r.Some? ==> PresetName(r.value) == dockerImage
    ensures r.Some? ==> r.value.checksum == collab.containerChecksum(r.value.image, r.value.tag)
    ensures r.Some? ==> exists k :: 0 <= k < |presets| && presets[k].(checksum := r.value.checksum) == r.value
                          && PresetName(presets[k]) == dockerImage
                          && forall j :: 0 <= j < k ==> PresetName(presets[j]) != dockerImage
  {
    if dockerImage == "" then None
    else
      var p := FindPreset(presets, dockerImage).value;
      Some(p.(checksum := collab.containerChecksum(p.image, p.tag)))
  }

  /** The `algorithm` block: present only for an algorithm with a docker image
      chosen; its container comes wholly from the custom fields or wholly from
      the preset; its language is the extension of the first valid file URL. */
  function AlgorithmBlock(form: MetadataForm, filesTransformed: Option<seq<string>>, preset: Option<Container>): (r: Option<AlgorithmInfo>)
    requires form.assetType == Algorithm && form.dockerImage != "" && form.dockerImage != CustomImage ==> preset.Some?
    ensures r.Some? <==> form.assetType == Algorithm && form.dockerImage != ""
    ensures r.Some? ==> r.value.version == AlgorithmVersion
    ensures r.Some? && filesTransformed.Some? && |filesTransformed.value| > 0 ==>
              r.value.language == Normalize.UrlFileExtension(filesTransformed.value[0])
    ensures r.Some? && (filesTransformed.None? || |filesTransformed.value| == 0) ==> r.value.language == ""
    ensures r.Some? && form.dockerImage == CustomImage ==>
              r.value.container == Container(form.dockerImageCustomEntrypoint, form.dockerImageCustom,
                                             form.dockerImageCustomTag, form.dockerImageCustomChecksum)
    ensures r.Some? && form.dockerImage != CustomImage ==> r.value.container == preset.value
  {
    if form.assetType == Algorithm && form.dockerImage != "" then
      var custom := form.dockerImage == CustomImage;
      Some(AlgorithmInfo(
        language := if filesTransformed.Some? && |filesTransformed.value| > 0
                    then Normalize.UrlFileExtension(filesTransformed.value[0]) else "",
        version := AlgorithmVersion,
        container := Container(
          entrypoint := if custom then form.dockerImageCustomEntrypoint else preset.value.entrypoint,
          image := if custom then form.dockerImageCustom else preset.value.image,
          tag := if custom then form.dockerImageCustomTag else preset.value.tag,
          checksum := if custom then form.dockerImageCustomChecksum else preset.value.checksum)))
    else None
  }

  /** The Gaia-X block: terms URL with a fallback to the default terms, PII
      fields for datasets only, the form's service credential under `serviceSD`. */
  function GaiaXBlock(form: MetadataForm, defaultAccessTerms: string, sanitizeUrl: string -> string): (r: GaiaXInformation)
    ensures |r.termsAndConditions| == 1
    ensures var terms := FirstValidUrl(sanitizeUrl, form.gaiaXInformation.termsAndConditions);
      r.termsAndConditions[0] == (if terms.Some? then SanitizedUrls(terms.value) else DefaultTerms(defaultAccessTerms))
    ensures r.pii.Some? <==> form.assetType == Dataset
    ensures r.pii.Some? ==> r.pii.value == PiiInfo(form.gaiaXInformation.containsPII, form.gaiaXInformation.piiInformation)
    ensures r.serviceSD == form.gaiaXInformation.serviceSD
    ensures r.serviceSelfDescription.None?
  {
    var terms := FirstValidUrl(sanitizeUrl, form.gaiaXInformation.termsAndConditions);
    GaiaXInformation(
      termsAndConditions := [if terms.Some? then SanitizedUrls(terms.value) else DefaultTerms(defaultAccessTerms)],
      pii := if form.assetType == Dataset
             then Some(PiiInfo(form.gaiaXInformation.containsPII, form.gaiaXInformation.piiInformation))
             else None,
      serviceSD := form.gaiaXInformation.serviceSD,
      serviceSelfDescription := None)
  }

  /** The form's licence when it is a non-empty string, else the market's terms page. */
  function License(license: Option<string>): (r: string)
    ensures license.Some? && license.value != "" ==> r == license.value
    ensures license.None? || license.value == "" ==> r == MarketTermsUrl
  {
    if license.Some? && license.value != "" then license.value else MarketTermsUrl
  }

  /** The `metadata` section of the document. */
  function BuildMetadata(values: FormPublishData, now: Normalize.DateTime, cfg: AppConfig, collab: Collaborators, preset: Option<Container>): (r: Metadata)
    requires |values.services| > 0
    requires now.Valid()
    requires (values.metadata.assetType == Algorithm && values.metadata.dockerImage != ""
              && values.metadata.dockerImage != CustomImage) ==> preset.Some?
    ensures r.assetType == values.metadata.assetType && r.name == values.metadata.name
            && r.description == values.metadata.description && r.author == values.metadata.author
    ensures r.license == License(values.metadata.license)
    ensures r.additionalInformation == AdditionalInformation(values.metadata.termsAndConditions,
                                         GaiaXBlock(values.metadata, cfg.defaultAccessTerms, collab.sanitizeUrl))
    ensures r.links == FirstValidUrl(collab.sanitizeUrl, values.services[0].links)
    ensures r.tags == Normalize.TransformTags(collab.slugify, values.metadata.tags)
    ensures r.algorithm.Some? <==> values.metadata.assetType == Algorithm && values.metadata.dockerImage != ""
    ensures r.algorithm == AlgorithmBlock(values.metadata, FirstValidUrl(collab.sanitizeUrl, Some(values.services[0].files)), preset)
    ensures r.created == r.updated == Normalize.DateToStringNoMS(Normalize.IsoString(now))
  {
    var m := values.metadata;
    var currentTime := Normalize.DateToStringNoMS(Normalize.IsoString(now));
    Metadata(
      created := currentTime,
      updated := currentTime,
      assetType := m.assetType,
      name := m.name,
      description := m.description,
      tags := Normalize.TransformTags(collab.slugify, m.tags),
      author := m.author,
      license := License(m.license),
      links := FirstValidUrl(collab.sanitizeUrl, values.services[0].links),
      additionalInformation := AdditionalInformation(
        m.termsAndConditions, GaiaXBlock(m, cfg.defaultAccessTerms, collab.sanitizeUrl)),
      algorithm := AlgorithmBlock(m, FirstValidUrl(collab.sanitizeUrl, Some(values.services[0].files)), preset))
  }

  /** `filesEncrypted`: `None` (the JavaScript `false`) for a preview or an
      invalid first file, else the provider's ciphertext; a provider failure
      aborts the publish. */
  function EncryptedFiles(values: FormPublishData, datatokenAddress: Option<string>, nftAddress: Option<string>, collab: Collaborators): (r: Result<Option<string>, PublishError>)
    requires |values.services| > 0 && |values.services[0].files| > 0
    ensures IsPreview(datatokenAddress, nftAddress) || !values.services[0].files[0].valid ==> r == Success(None)
    ensures r.Failure? || (r.Success? && r.value.Some?) ==>
              !IsPreview(datatokenAddress, nftAddress) && values.services[0].files[0].valid
    ensures !IsPreview(datatokenAddress, nftAddress) && values.services[0].files[0].valid ==>
              var service := values.services[0];
              var request := EncryptRequest(nftAddress, datatokenAddress,
                [collab.normalizeFile(service.files[0].fileType, service.files[0], values.user.chainId)]);
              var cipher := collab.encryptFiles(request, values.user.chainId, service.providerUrl);
              (cipher.None? ==> r == Failure(EncryptionUnavailable)) && (cipher.Some? ==> r == Success(cipher))
  {
    var service := values.services[0];
    var chainId := values.user.chainId;
    if IsPreview(datatokenAddress, nftAddress) || !service.files[0].valid then Success(None)
    else
      var request := EncryptRequest(nftAddress, datatokenAddress,
        [collab.normalizeFile(service.files[0].fileType, service.files[0], chainId)]);
      match collab.encryptFiles(request, chainId, service.providerUrl)
      case None => Failure(EncryptionUnavailable)
      case Some(cipher) => Success(Some(cipher))
  }

  /** The single service entry of the document. */
  function BuildService(service: ServiceForm, datatokenAddress: Option<string>, filesEncrypted: Option<string>, collab: Collaborators): (r: Service)
    ensures r.serviceType == service.access
    ensures r.files == filesEncrypted.GetOr("")
    ensures r.id == collab.getHash(ServiceIdInput(datatokenAddress, filesEncrypted))
    ensures r.datatokenAddress == datatokenAddress && r.serviceEndpoint == service.providerUrl
    ensures r.timeout == collab.timeoutToSeconds(service.timeout)
    ensures r.compute.Some? <==> service.access == Compute
    ensures r.compute.Some? ==> r.compute.value == service.computeOptions
  {
    Service(
      id := collab.getHash(ServiceIdInput(datatokenAddress, filesEncrypted)),
      serviceType := service.access,
      files := filesEncrypted.GetOr(""),
      datatokenAddress := datatokenAddress,
      serviceEndpoint := service.providerUrl,
      timeout := collab.timeoutToSeconds(service.timeout),
      compute := if service.access == Compute then Some(service.computeOptions) else None)
  }

  /** The preconditions the transform does not check: a first service with a
      first file, a renderable current time, and a catalog entry for a chosen preset. */
  predicate TransformRequires(values: FormPublishData, now: Normalize.DateTime, cfg: AppConfig) {
    && |values.services| > 0
    && |values.services[0].files| > 0
    && now.Valid()
    && (values.metadata.assetType == Algorithm && values.metadata.dockerImage != "" && values.metadata.dockerImage != CustomImage
        ==> exists k :: 0 <= k < |cfg.algorithmContainerPresets|
                        && PresetName(cfg.algorithmContainerPresets[k]) == values.metadata.dockerImage)
  }

  /** The container preset the transform looks up: only for an algorithm
      whose chosen image is a catalog entry rather than the custom one. */
  function ChosenPreset(m: MetadataForm, cfg: AppConfig, collab: Collaborators): (r: Option<Container>)
    requires m.assetType == Algorithm && m.dockerImage != "" && m.dockerImage != CustomImage
             ==> exists k :: 0 <= k < |cfg.algorithmContainerPresets| && PresetName(cfg.algorithmContainerPresets[k]) == m.dockerImage
    ensures r.Some? <==> m.assetType == Algorithm && m.dockerImage != "" && m.dockerImage != CustomImage
    ensures r.Some? ==> r == AlgorithmContainerPreset(cfg.algorithmContainerPresets, m.dockerImage, collab)
  {
    if m.assetType == Algorithm && m.dockerImage != "" && m.dockerImage != CustomImage
    then AlgorithmContainerPreset(cfg.algorithmContainerPresets, m.dockerImage, collab)
    else None
  }

  /** `transformPublishFormToDdo(values, datatokenAddress, nftAddress)` at instant `now`. */
  function TransformPublishFormToDdo(values: FormPublishData, datatokenAddress: Option<string>, nftAddress: Option<string>,
                                     now: Normalize.DateTime, cfg: AppConfig, collab: Collaborators): (r: Result<DDO, PublishError>)
    requires TransformRequires(values, now, cfg)
    ensures r.Failure? <==> EncryptedFiles(values, datatokenAddress, nftAddress, collab).Failure?
    ensures r.Success? ==> r.value.context == DidContext && r.value.version == DdoVersion && |r.value.services| == 1
    ensures r.Success? ==> r.value.id == (if Present(nftAddress) then collab.generateDid(nftAddress.value, values.user.chainId) else PreviewDid)
    ensures r.Success? ==> r.value.nftAddress == nftAddress && r.value.chainId == values.user.chainId
    ensures r.Success? ==> (r.value.preview.Some? <==> !Present(datatokenAddress))
    ensures r.Success? && r.value.preview.Some? ==>
              r.value.preview.value.datatokens == [values.services[0].dataTokenOptions]
              && r.value.preview.value.nft == collab.nftCreateData(values.metadata.nft, values.user.accountId, None)
    ensures r.Success? ==> r.value.services[0] == BuildService(values.services[0], datatokenAddress,
                                                               EncryptedFiles(values, datatokenAddress, nftAddress, collab).value, collab)
    ensures r.Success? ==> r.value.metadata == BuildMetadata(values, now, cfg, collab, ChosenPreset(values.metadata, cfg, collab))
    ensures r.Success? ==> (r.value.metadata.algorithm.Some? <==> values.metadata.assetType == Algorithm && values.metadata.dockerImage != "")
    ensures r.Success? ==> r.value.metadata.tags == Normalize.TransformTags(collab.slugify, values.metadata.tags)
                           && r.value.metadata.license == License(values.metadata.license)
                           && r.value.metadata.additionalInformation.gaiaXInformation
                              == GaiaXBlock(values.metadata, cfg.defaultAccessTerms, collab.sanitizeUrl)
  {
    var m := values.metadata;
    var service := values.services[0];
    var metadata := BuildMetadata(values, now, cfg, collab, ChosenPreset(m, cfg, collab));
    match EncryptedFiles(values, datatokenAddress, nftAddress, collab)
    case Failure(e) => Failure(e)
    case Success(filesEncrypted) =>
      Success(DDO(
        context := DidContext,
        id := if Present(nftAddress) then collab.generateDid(nftAddress.value, values.user.chainId) else PreviewDid,
        nftAddress := nftAddress,
        version := DdoVersion,
        chainId := values.user.chainId,
        metadata := metadata,
        services := [BuildService(service, datatokenAddress, filesEncrypted, collab)],
        preview := if !Present(datatokenAddress)
                   then Some(PreviewFields([service.dataTokenOptions], collab.nftCreateData(m.nft, values.user.accountId, None)))
                   else None))
  }

  // ---------------------------------------------------------------------
  // Properties of the transform

  /** `created` and `updated` are the same instant, rendered without milliseconds. */
  lemma TimestampsEqualWithoutMillis(values: FormPublishData, datatokenAddress: Option<string>, nftAddress: Option<string>,
                                     now: Normalize.DateTime, cfg: AppConfig, collab: Collaborators)
    requires TransformRequires(values, now, cfg)
    ensures var r := TransformPublishFormToDdo(values, datatokenAddress, nftAddress, now, cfg, collab);
      r.Success? ==> r.value.metadata.created == r.value.metadata.updated == Normalize.IsoStringNoMillis(now)
                     && '.' !in r.value.metadata.created
  {
    Normalize.DateToStringNoMSDropsMillis(now);
  }

  /** A preview (no address passed) and a final document (both passed) differ
      exactly in identity, synthetic fields and encrypted files. */
  lemma PreviewAndFinalDocuments(values: FormPublishData, datatokenAddress: Option<string>, nftAddress: Option<string>,
                                 now: Normalize.DateTime, cfg: AppConfig, collab: Collaborators)
    requires TransformRequires(values, now, cfg)
    ensures var r := TransformPublishFormToDdo(values, datatokenAddress, nftAddress, now, cfg, collab);
      IsPreview(datatokenAddress, nftAddress) ==>
        r.Success? && r.value.id == PreviewDid && r.value.preview.Some? && r.value.services[0].files == ""
    ensures var r := TransformPublishFormToDdo(values, datatokenAddress, nftAddress, now, cfg, collab);
      Present(datatokenAddress) && Present(nftAddress) && r.Success? ==>
        r.value.id == collab.generateDid(nftAddress.value, values.user.chainId) && r.value.preview.None?
        && (values.services[0].files[0].valid ==>
              Some(r.value.services[0].files) == collab.encryptFiles(
                EncryptRequest(nftAddress, datatokenAddress,
                  [collab.normalizeFile(values.services[0].files[0].fileType, values.services[0].files[0], values.user.chainId)]),
                values.user.chainId, values.services[0].providerUrl))
  {
  }

  /** With no datatoken address the service id hashes `NaN` when nothing was
      encrypted, so every such preview shares one id; otherwise it hashes the
      ciphertext prefixed with `undefined`. */
  lemma PreviewServiceIdHashesNaN(values: FormPublishData, datatokenAddress: Option<string>, nftAddress: Option<string>,
                                  now: Normalize.DateTime, cfg: AppConfig, collab: Collaborators)
    requires TransformRequires(values, now, cfg)
    ensures var r := TransformPublishFormToDdo(values, datatokenAddress, nftAddress, now, cfg, collab);
      datatokenAddress.None? && (IsPreview(datatokenAddress, nftAddress) || !values.services[0].files[0].valid) ==>
        r.Success? && r.value.services[0].id == collab.getHash(NotANumber)
    ensures var r := TransformPublishFormToDdo(values, datatokenAddress, nftAddress, now, cfg, collab);
      datatokenAddress.None? && r.Success? && !IsPreview(datatokenAddress, nftAddress) && values.services[0].files[0].valid ==>
        r.value.services[0].id == collab.getHash(Text("undefined" + r.value.services[0].files))
  {
    var r := TransformPublishFormToDdo(values, datatokenAddress, nftAddress, now, cfg, collab);
    if datatokenAddress.None? && r.Success? {
      var filesEncrypted := EncryptedFiles(values, datatokenAddress, nftAddress, collab).value;
      assert r.value.services[0] == BuildService(values.services[0], datatokenAddress, filesEncrypted, collab);
    }
  }

  /** A non-empty service `files` value is always the provider's ciphertext of
      the first file: a document never carries the plaintext URL. */
  lemma FilesAreCiphertextOrEmpty(values: FormPublishData, datatokenAddress: Option<string>, nftAddress: Option<string>,
                                  now: Normalize.DateTime, cfg: AppConfig, collab: Collaborators)
    requires TransformRequires(values, now, cfg)
    ensures var r := TransformPublishFormToDdo(values, datatokenAddress, nftAddress, now, cfg, collab);
      r.Success? && r.value.services[0].files != "" ==>
        !IsPreview(datatokenAddress, nftAddress) && values.services[0].files[0].valid
        && Some(r.value.services[0].files) == collab.encryptFiles(
             EncryptRequest(nftAddress, datatokenAddress,
               [collab.normalizeFile(values.services[0].files[0].fileType, values.services[0].files[0], values.user.chainId)]),
             values.user.chainId, values.services[0].providerUrl)
  {
  }
}
