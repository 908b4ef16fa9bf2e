# Asset publication pipeline: a Dafny model

This project models the publication logic of the data-market portal. It covers:

- the transform from a publish form snapshot to a DDO (the schema-versioned
  metadata document), in its *preview* and *final* variants, and its string
  helpers (file extension, timestamp without milliseconds, tag normalisation);
- the construction of the pricing parameters and the single NFT-factory call
  that creates NFT, datatoken and either a fixed-rate exchange or a dispenser;
- the compliance API version selector;
- the trust-credential calls (sign, store, verify), each mapping an HTTP
  outcome to a structured result, plus recording a credential in a DDO and
  reading the publisher's legal name back from a credential;
- the list of assets offered as algorithms for a compute dataset
  (filtering, checked flag, and checked-first ordering).

Every external call becomes either a function-valued field of a collaborator
record or an input value:

- `Ddo.Collaborators` holds `sanitizeUrl`, `slugify`, `generateDid`, `getHash`,
  `normalizeFile`, `mapTimeoutStringToSeconds`, `generateNftCreateData`,
  `toString` of a price, `getContainerChecksum` and `getEncryptedFiles`.
  `getEncryptedFiles` gives `None` when its promise rejects, which aborts the
  transform.
- `Pricing.NftFactory` holds the two factory calls.
- `AssetConvertor.Query` holds `isAddressWhitelisted`.
- `JSON.parse` is a parameter `parse: string -> Option<Json>`.
- An `axios.post` is an input `Compliance.HttpOutcome`: a response with status
  and body, or a thrown transport error.
- The current time is a `Normalize.DateTime` argument.
- Application constants are passed as a `Config.AppConfig` record, and the
  chain's contract addresses as a `Config.ChainConfig` record.

JavaScript semantics the code depends on are written out:

- truthiness (`Json.Truthy`, `Ddo.Present`);
- optional chaining (`Json.Prop`, `Json.First`) and plain property access that
  throws on `null`/`undefined` (`Json.Member`);
- object spread (`Json.SpreadMembers`);
- the `+` that builds the service hash input (`Ddo.ServiceIdInput`): string
  concatenation, with `undefined` written as "undefined", when either operand
  is a string, and `NaN` for `undefined + false` (`Ddo.HashInput`);
- a thrown error or rejected promise is the `Failure` side of `Common.Result`.

Files:

| file | module | contents |
|---|---|---|
| common.dfy | Common | `Option`, `Result`, `startsWith`, ASCII lower-casing, sequence reversal |
| json.dfy | Json | JSON values, truthiness, optional chaining, spread |
| config.dfy | Config | application constants, container preset catalog, chain addresses |
| normalize.dfy | Normalize | `getUrlFileExtension`, `dateToStringNoMS` (with `toISOString`), `transformTags` |
| ddo.dfy | Ddo | form and DDO types, `transformPublishFormToDdo` and its pieces |
| pricing.dfy | Pricing | `createTokensAndPricing` |
| compliance.dfy | Compliance | `getComplianceApiVersion`, sign / store / verify, `updateServiceCredential`, `getPublisherFromServiceCredential` |
| asset_convertor.dfy | AssetConvertor | `transformAssetToAssetSelection` |

## Model

| member | source | states |
|---|---|---|
| Normalize.UrlFileExtension | src/components/Publish/_utils.ts:37-40 | the result is the last piece of the URL split at '.': it holds no '.', is a suffix of the URL, and is preceded by a '.' unless it is the whole URL |
| Normalize.UrlFileExtensionOfDotted | src/components/Publish/_utils.ts:37-40 | for any stem and any dot-free tail, the extension of `stem.tail` is exactly the tail |
| Normalize.UrlFileExtensionWithoutDot | src/components/Publish/_utils.ts:37-40 | a URL with no '.' is its own extension (the split yields one piece) |
| Normalize.UrlFileExtensionOfDotlessPath | src/components/Publish/_utils.ts:37-40 | the split ignores path structure: `https://example.com/run` yields `com/run`, while `.../algo.py` yields `py` |
| Normalize.FindMillis | src/components/Publish/_utils.ts:57 | finds the leftmost position where `/\.[0-9]{3}Z/` matches, or reports that there is none |
| Normalize.DateToStringNoMS | src/components/Publish/_utils.ts:56-58 | text with no match is returned unchanged; otherwise only the first match is replaced by "Z" |
| Normalize.DateToStringNoMSDropsMillis | src/components/Publish/_utils.ts:56-58 | on any `toISOString` rendering the result is the same instant rendered without milliseconds, and it contains no '.' |
| Normalize.TransformTags | src/components/Publish/_utils.ts:60-63 | undefined tags stay undefined; otherwise length and order are kept, and entry i is the lower-cased slug of input tag i |
| Normalize.TransformedTagsAreLowerCase | src/components/Publish/_utils.ts:60-63 | no normalised tag contains an upper-case letter |
| Normalize.TransformTagsIdempotent | src/components/Publish/_utils.ts:60-63 | if `slugify` leaves its lower-cased output alone, normalising twice is the same as normalising once |
| Ddo.IsPreview | src/components/Publish/_utils.ts:92 | a call is a preview when neither the datatoken address nor the NFT address is truthy |
| Ddo.FirstValidUrl | src/components/Publish/_utils.ts:100-107 | there is a URL list iff the list is present, non-empty and its first entry is valid; the list is then the sanitised first URL alone |
| Ddo.ServiceIdInput | src/components/Publish/_utils.ts:168-176 | the hash input is `NaN` iff both the datatoken address and the ciphertext are absent; with an address it is the address followed by the ciphertext or "false"; with only a ciphertext it is "undefined" followed by the ciphertext |
| Ddo.FindPreset | src/components/Publish/_utils.ts:47-49 | returns the first catalog entry named `image:tag` equal to the docker image, or nothing iff no entry has that name |
| Ddo.AlgorithmContainerPreset | src/components/Publish/_utils.ts:42-54 | an empty image gives nothing; otherwise returns the first catalog entry of that name, with its checksum replaced by the registry's checksum for its image and tag |
| Ddo.AlgorithmBlock | src/components/Publish/_utils.ts:133-159 | the block exists iff type is algorithm and an image is chosen; version is "0.1"; language is the first valid file's extension, or "" without one; the container comes wholly from the custom fields for "custom", otherwise wholly from the preset |
| Ddo.GaiaXBlock | src/components/Publish/_utils.ts:119-131 | exactly one terms entry: the sanitised terms URL, or the default access terms when there is none; the PII fields exist iff the asset is a dataset; the form credential goes under `serviceSD` and `serviceSelfDescription` is left unset |
| Ddo.License | src/components/Publish/_utils.ts:117-118 | a non-empty license is kept; a missing or empty one falls back to the market terms URL |
| Ddo.BuildMetadata | src/components/Publish/_utils.ts:109-160 | `created` and `updated` are both the current time without milliseconds; tags, license, links, Gaia-X block and algorithm block follow the rules above; the terms-and-conditions flag is copied from the form; name, type, description and author are copied |
| Ddo.EncryptedFiles | src/components/Publish/_utils.ts:162-172 | no encryption for a preview or an invalid first file; otherwise the provider's ciphertext of the normalised first file, with a provider failure aborting; ciphertext or failure only ever comes from a non-preview call with a valid first file |
| Ddo.BuildService | src/components/Publish/_utils.ts:174-184 | files are the ciphertext or ""; the id hashes the JavaScript sum of the datatoken address and the encryption outcome (`NaN` when both are absent); the endpoint, timeout and type come from the form; compute options exist iff access is compute |
| Ddo.TransformPublishFormToDdo | src/components/Publish/_utils.ts:65-211 | fails iff encryption fails; otherwise context, version 4.1.0 and one service; the id is derived from the NFT address when one is given, else it is `0x...`; preview fields exist iff no datatoken address is given; the service is built from the encryption outcome; the metadata is built with the catalog preset exactly when an algorithm names a non-custom image, so it has an algorithm block iff the asset is an algorithm with an image, and its tags, license and Gaia-X block follow the rules above |
| Ddo.ChosenPreset | src/components/Publish/_utils.ts:94-97 | a preset is looked up iff the asset is an algorithm whose image is neither empty nor "custom", and it is then the catalog preset with the registry checksum |
| Ddo.TimestampsEqualWithoutMillis | src/components/Publish/_utils.ts:91-111 | in every produced document `created` equals `updated` equals the instant's ISO rendering without milliseconds, and it holds no '.' |
| Ddo.PreviewAndFinalDocuments | src/components/Publish/_utils.ts:90-92 | a preview call always succeeds with id `0x...`, preview fields and empty files; a final call has a derived DID, no preview fields, and ciphertext files when the first file is valid |
| Ddo.PreviewServiceIdHashesNaN | src/components/Publish/_utils.ts:168-176 | without a datatoken address, a call that encrypts nothing always gets the id `getHash(NaN)`, and one that encrypts gets the hash of "undefined" followed by the ciphertext |
| Ddo.FilesAreCiphertextOrEmpty | src/components/Publish/_utils.ts:168-176 | a non-empty service `files` value is always the provider's ciphertext from a non-preview call, never a plaintext URL |
| Pricing.DatatokenParams | src/components/Publish/_utils.ts:228-239 | template index and fees come from configuration; minter and payment collector are the account; the fee token is the base token; the cap is the maximal constant; name and symbol come from the form |
| Pricing.PlanPricing | src/components/Publish/_utils.ts:245-310 | "fixed" and only "fixed" gives a fixed-rate call, "free" and only "free" a dispenser call; both share the datatoken parameters; fixed-rate parameters: 18 datatoken decimals, swap fee from configuration, minting on; dispenser parameters: max tokens and max balance are 1 token in wei, the swapper is the zero address |
| Pricing.CreateTokensAndPricing | src/components/Publish/_utils.ts:213-313 | an unknown pricing type yields three undefined fields; a known one makes exactly the planned factory call, reporting its NFT address, datatoken address and transaction hash, and rejects when the transaction fails |
| Pricing.Provisioned | src/components/Publish/_utils.ts:271-273 | a receipt gives all three result fields from the receipt; a failed transaction rejects |
| Pricing.PricingConstantsIgnoreForm | src/components/Publish/_utils.ts:228-289 | for two forms with the same pricing type, fees, fee collector, cap, template and dispenser caps are identical, whatever else the forms contain |
| Compliance.DomainIndex | src/components/Publish/_utils.ts:326 | `findIndex` semantics: -1 iff no domain is a prefix of the entry, otherwise the first such index |
| Compliance.SomeEntryAllowed | src/components/Publish/_utils.ts:325-327 | true iff some context entry starts with some allowed registry domain |
| Compliance.ComplianceApiVersion | src/components/Publish/_utils.ts:315-332 | a missing or empty context gives the latest version, as does any entry with an allowed registry prefix; every other context gives "2204" |
| Compliance.SignServiceCredential | src/components/Publish/_utils.ts:334-352 | a falsy input or a transport error gives undefined; otherwise an object holding the response fields plus `selfDescriptionCredential`, which is a copy of the raw input unless the response overrides it |
| Compliance.SignedKeepsRawCredential | src/components/Publish/_utils.ts:343-346 | when the credential and the response body are both objects and the body has no `selfDescriptionCredential` member of its own, the credential is kept unchanged under `selfDescriptionCredential`, next to every response field |
| Compliance.StoreRawServiceSD | src/components/Publish/_utils.ts:354-381 | stored iff the input is truthy and the response is 200 with a non-null body, and then the URL is the body's `storedSdUrl`; every other case gives not-stored with no URL |
| Compliance.StoreConflictIsNotStored | src/components/Publish/_utils.ts:366-371 | a 409 is a plain not-stored result |
| Compliance.VerifiableCredentials | src/components/Publish/_utils.ts:411 | the credential array is read iff the parsed value has an array `verifiableCredential`; anything else is the TypeError `.find` throws |
| Compliance.IsServiceOffering | src/components/Publish/_utils.ts:412-413 | a credential is a service offering when its subject's `type` is the string `gx:ServiceOffering` |
| Compliance.FindServiceOffering | src/components/Publish/_utils.ts:411-414 | the first credential whose subject type is `gx:ServiceOffering`, or nothing iff there is none |
| Compliance.IdMatch | src/components/Publish/_utils.ts:420 | no comparison for a falsy DID, and always a boolean result for a truthy one unless it throws; a true match iff the subject id is a string equal to the DID up to letter case; a non-string, non-null id throws |
| Compliance.SubjectId | src/components/Publish/_utils.ts:411-415 | the id is the subject id of the first service-offering credential, absent when there is none; it throws iff there is no credential array |
| Compliance.AcceptedResult | src/components/Publish/_utils.ts:410-422 | a 201 is verified with the latest API version and the id comparison, unless reading the id throws |
| Compliance.VerifyRawServiceCredential | src/components/Publish/_utils.ts:383-429 | empty input gives not-verified; unparsable text rejects; a 409 with a body gives a conflict echoing `body`; a 201 gives exactly the accepted result for the parsed credential, and only a 201 can verify; any other status or transport error gives not-verified |
| Compliance.VerifiedSubjectMatchesDid | src/components/Publish/_utils.ts:410-422 | for any offer whose first service-offering credential has the string subject id `s`, a 201 verifies with `idMatch` equal to whether `s` equals the DID up to letter case |
| Compliance.ServiceOfferingCredentialVerifies | src/components/Publish/_utils.ts:410-422 | the one-credential offer whose subject is a service offering with id `s` is verified on a 201, matching exactly when `s` equals the DID up to letter case |
| Compliance.UpdateServiceCredential | src/components/Publish/_utils.ts:447-458 | `serviceSelfDescription` becomes `{raw, url}`; nothing else in the DDO changes, in particular not the `serviceSD` the transform wrote |
| Compliance.UpdateServiceCredentialOverwrites | src/components/Publish/_utils.ts:447-458 | recording two credentials one after the other is the same as recording the second |
| Compliance.UnwrapLegalName | src/components/Publish/_utils.ts:473-474 | a string legal name is returned as it is; anything else yields its `@value` member |
| Compliance.LegalNameOf | src/components/Publish/_utils.ts:469-472 | the `gx:legalName` of the first verifiable credential's subject, absent when any step is missing |
| Compliance.GetPublisherFromServiceCredential | src/components/Publish/_utils.ts:460-477 | a falsy input gives undefined; text is parsed first, and malformed text rejects; otherwise the result is the unwrapped legal name of the first verifiable credential |
| Compliance.PublisherRoundTrip | src/components/Publish/_utils.ts:463-476 | a credential built with a plain or a localised legal name, given either parsed or as text, yields that name back |
| AssetConvertor.ServiceByName | src/@utils/assetConvertor.ts:14-15 | the first service of the requested type, or nothing iff the asset has none |
| AssetConvertor.AlgorithmService | src/@utils/assetConvertor.ts:13-14 | the asset's compute service, or its access service when it has no compute service |
| AssetConvertor.Included | src/@utils/assetConvertor.ts:16-19 | an asset is listed when it has a non-negative price and its algorithm service's endpoint is the dataset's provider |
| AssetConvertor.Checked | src/@utils/assetConvertor.ts:20-26 | an entry is checked when a selection is given and some selected algorithm has the asset's DID |
| AssetConvertor.IsSelected | src/@utils/assetConvertor.ts:21-26 | true iff some selected algorithm has the asset's DID |
| AssetConvertor.Entry | src/@utils/assetConvertor.ts:27-34 | the entry copies DID, name, price and the first datatoken's symbol; checked iff a selection exists and names the DID; the whitelist flag is the collaborator's answer |
| AssetConvertor.Listed | src/@utils/assetConvertor.ts:35-37 | each class of entries (checked or unchecked) is no longer than the input, and every entry in it carries that class's flag |
| AssetConvertor.AllListed | src/@utils/assetConvertor.ts:13-39 | every listed entry is the entry of some included input asset |
| AssetConvertor.ListedSnoc | src/@utils/assetConvertor.ts:35-37 | appending an asset to the input adds its entry at the end of its class (checked or unchecked) when it is included, and changes nothing otherwise |
| AssetConvertor.AddAsset | src/@utils/assetConvertor.ts:14-37 | one pass of the loop body turns the list for a prefix of the input into the list for the prefix extended by one asset |
| AssetConvertor.SelectionStep | src/@utils/assetConvertor.ts:35-37 | one loop step puts a checked entry in front, an unchecked entry at the back, and skips an excluded asset |
| AssetConvertor.TransformAssetToAssetSelection | src/@utils/assetConvertor.ts:5-41 | the loop builds checked entries in reverse input order followed by unchecked entries in input order; the output is no longer than the input; every checked entry precedes every unchecked one |
| AssetConvertor.OrderedByChecked | src/@utils/assetConvertor.ts:35-37 | in the selection order every checked entry precedes every unchecked one |
| AssetConvertor.ListedPartition | src/@utils/assetConvertor.ts:35-37 | together, the checked and unchecked entries are exactly the listed entries (as a multiset, and by count) |
| AssetConvertor.AllListedHasEveryIncluded | src/@utils/assetConvertor.ts:17-20 | every asset passing the price and endpoint filter has its entry listed |
| AssetConvertor.SelectionIsPermutationOfListed | src/@utils/assetConvertor.ts:13-39 | the output is a permutation of the listed entries in input order: same entries, same multiplicities |
| AssetConvertor.SelectionHoldsExactlyIncluded | src/@utils/assetConvertor.ts:13-39 | each output entry is the entry of an included input asset, and every included asset's entry is in the output |
| AssetConvertor.NoSelectionKeepsOrder | src/@utils/assetConvertor.ts:21-37 | without a selection nothing is checked, and the output is the filtered input in input order |

## Left out

- `getServiceCredential` (src/components/Publish/_utils.ts:431-440) is a network fetch followed by `JSON.stringify`, and `getFormattedCodeString` (442-445) is `JSON.stringify` formatting. Neither has logic beyond the library calls.
- Logging (`LoggerInstance`) is left out; it has no effect on results.
- The library functions are uninterpreted collaborator fields: `slugify`, `sanitizeUrl`, `generateDid`, `getHash`, `normalizeFile`, `mapTimeoutStringToSeconds`, `generateNftCreateData`, `isAddressWhitelisted`, `getContainerChecksum`, `getEncryptedFiles`, the NFT factory, `toString` of a price, and `JSON.parse`. Hashing and slug rules are not reimplemented.
- `web3.utils.toWei('1')` is the constant `Pricing.OneTokenInWei`.
- AssetConvertor.ServiceByName: the `getServiceByName` helper of src/@utils/ddo.ts is not part of this model. The model assumes it returns the first service of the given type.
- Ddo.AlgorithmContainerPreset: the source writes the fetched checksum into the shared preset catalog entry. The model returns an updated copy and leaves the catalog unchanged.
- Ddo.AlgorithmContainerPreset: a chosen preset missing from the catalog makes the source throw. This is a precondition of the model (`Ddo.TransformRequires`).
- Ddo.AlgorithmContainerPreset: a failing checksum lookup is not modelled.
- Ddo.TransformRequires: the source reads `files[0]` unconditionally (src/components/Publish/_utils.ts:165). A first file is therefore a precondition, not an error path.
- Normalize.DateTime: `toISOString` is modelled for years 0 to 9999. Expanded six-digit years and the `RangeError` for invalid dates are left out.
- Common.ToLower: `toLowerCase` is modelled on ASCII letters only. Other Unicode case mappings are left out.
- Ddo.FirstValidUrl: the source yields `undefined` for a missing list, `0` for an empty one and `false` for an invalid first entry (src/components/Publish/_utils.ts:100-107). The model maps all three to `None`. For files and terms URL only truthiness is used afterwards (lines 124 and 136), but `links` is written into the document as it is (line 119). So a document whose links were empty or invalid carries `0` or `false` there, which the model does not represent.
- Json.SpreadMembers: spreading a string or array response body (which copies index keys) is not modelled. Only object members are spread.
- Compliance.IdMatch: when the DID is falsy the source puts the DID itself (`''` or `undefined`) into `idMatch`. The model writes `None`.
- Compliance.StoreRawServiceSD, Compliance.VerifyRawServiceCredential: axios configuration is not modelled. Under its default `validateStatus` a 409 arrives as a thrown error, which leads to the catch branch rather than the 409 branch. The model maps each status to its branch as the code is written.
- Compliance.VerifyRawServiceCredential: `JSON.parse` runs before the `try` (src/components/Publish/_utils.ts:394), so malformed credential text rejects (`Failure`) instead of giving `{verified: false}`.
- Ddo.TransformPublishFormToDdo: each part of the document follows its own address (src/components/Publish/_utils.ts:90-92, 165-172, 186-209):
  - the DID follows `nftAddress`;
  - the preview fields follow `datatokenAddress`;
  - encryption happens unless both are absent.

  A call with only one address is therefore mixed. `Ddo.PreviewAndFinalDocuments` covers the two pure cases.
- Ddo.EncryptedFiles: encryption runs whenever the two addresses are not both absent (src/components/Publish/_utils.ts:90-92, 168-172), so a call with only one address sends that one and `undefined` to the provider.
- Ddo.EncryptedFiles: a `getEncryptedFiles` promise that resolves to `undefined` would give `files: ''` and a hash of the datatoken address followed by "undefined", or of `NaN` when there is no address (lines 175-177). The collaborator's `None` stands for a rejection only, so that outcome is not represented.
- AssetConvertor.TransformAssetToAssetSelection: reading `asset.datatokens[0].symbol` throws a TypeError for a listed asset with no datatoken (src/@utils/assetConvertor.ts:32). The model requires every included asset to have a datatoken (`AssetConvertor.Listable`) instead of modelling the rejection.
- Compliance.UpdateServiceCredential: the source writes the credential into the caller's `ddo` and returns that same object (src/components/Publish/_utils.ts:447-458). The model returns an updated copy; the aliasing is not represented.
- The React views, wallet and network-switch components, and the edit-form type declarations are not part of this model. They are rendering and plumbing.
