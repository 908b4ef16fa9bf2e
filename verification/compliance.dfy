/** The trust-credential side of publication: the compliance API version
    selector, the sign / store / verify calls against the compliance registry
    (each mapping an HTTP outcome to a structured result), recording a
    credential in a document, and reading the publisher's legal name. */
module Compliance {
  import opened Common
  import opened Json
  import opened Ddo

  /** What an `axios.post` resolved to: a response, or a thrown transport error. */
  datatype HttpOutcome = Response(status: int, data: Json) | TransportError(message: string)

  // ---------------------------------------------------------------------
  // getComplianceApiVersion

  const AllowedRegistryDomains: seq<string> := ["https://registry.gaia-x.eu/v2206", "https://registry.lab.gaia-x.eu/v2206"]
  const LegacyComplianceApiVersion := "2204"

  /** The index of the first domain at or after `from` that prefixes `e`, or -1. */
  function DomainIndex(e: string, domains: seq<string>, from: nat): (r: int)
    requires from <= |domains|
    ensures r == -1 || from <= r < |domains|
    ensures r == -1 <==> forall j :: from <= j < |domains| ==> !StartsWith(e, domains[j])
    ensures r != -1 ==> StartsWith(e, domains[r]) && forall j :: from <= j < r ==> !StartsWith(e, domains[j])
    decreases |domains| - from
  {
    if from == |domains| then -1
    else if StartsWith(e, domains[from]) then from
    else DomainIndex(e, domains, from + 1)
  }

  /** Whether some context entry starts with one of the allowed registry domains. */
  function SomeEntryAllowed(context: seq<string>): (r: bool)
    ensures r <==> NamesAllowedRegistry(context)
  {
    if |context| == 0 then false
    else if DomainIndex(context[0], AllowedRegistryDomains, 0) != -1 then true
    else
      var r := SomeEntryAllowed(context[1..]);
      assert forall i :: 1 <= i < |context| ==> context[i] == context[1..][i - 1];
      assert NamesAllowedRegistry(context) ==> NamesAllowedRegistry(context[1..]);
      r
  }

  /** Some context entry starts with an allowed registry domain. */
  predicate NamesAllowedRegistry(context: seq<string>) {
    exists i, j :: 0 <= i < |context| && 0 <= j < |AllowedRegistryDomains| && StartsWith(context[i], AllowedRegistryDomains[j])
  }

  /** The registry protocol version: the latest for a missing or empty context
      or one naming an allowed registry, the legacy version otherwise. */
  function ComplianceApiVersion(latest: string, context: Option<seq<string>>): (r: string)
    ensures context.None? || |context.value| == 0 ==> r == latest
    ensures context.Some? && NamesAllowedRegistry(context.value) ==> r == latest
    ensures context.Some? && |context.value| > 0 && !NamesAllowedRegistry(context.value) ==> r == LegacyComplianceApiVersion
  {
    if context.None? || |context.value| == 0 || SomeEntryAllowed(context.value) then latest
    else LegacyComplianceApiVersion
  }

  // ---------------------------------------------------------------------
  // signServiceCredential

  const SelfDescriptionKey := "selfDescriptionCredential"

  /** The response body's members next to a copy of the raw credential under
      `selfDescriptionCredential`, for any response; `undefined` for a falsy
      input or a transport error. A response member of the same name overrides
      the raw copy. */
  function SignServiceCredential(raw: Option<Json>, response: HttpOutcome): (r: Option<Json>)
    ensures !Truthy(raw) || response.TransportError? ==> r.None?
    ensures Truthy(raw) && response.Response? ==> r.Some? && r.value.JObject?
    ensures r.Some? ==>
              var m := r.value.members;
              var data := SpreadMembers(Some(response.data));
              && m.Keys == data.Keys + {SelfDescriptionKey}
              && (forall k :: k in data ==> m[k] == data[k])
              && (SelfDescriptionKey !in data ==> m[SelfDescriptionKey] == JObject(SpreadMembers(raw)))
  {
    if !Truthy(raw) then None
    else
      match response
      case TransportError(_) => None
      case Response(_, data) =>
        Some(JObject(map[SelfDescriptionKey := JObject(SpreadMembers(raw))] + SpreadMembers(Some(data))))
  }

  /** An object credential is kept as it was under `selfDescriptionCredential`
      unless the registry answers with a member of that name. */
  lemma SignedKeepsRawCredential(raw: map<string, Json>, status: int, data: map<string, Json>)
    requires SelfDescriptionKey !in data
    ensures var r := SignServiceCredential(Some(JObject(raw)), Response(status, JObject(data)));
      r.Some? && r.value.JObject? && r.value.members[SelfDescriptionKey] == JObject(raw)
      && forall k :: k in data ==> k in r.value.members && r.value.members[k] == data[k]
  {
  }

  // ---------------------------------------------------------------------
  // storeRawServiceSD

  datatype StoreResult = StoreResult(verified: bool, storedSdUrl: Option<Json>)

  /** Only a 200 response counts as stored, with the response's `storedSdUrl`;
      a falsy input, 409, any other status, or any thrown error (including
      reading a `null` body) is `{ verified: false, storedSdUrl: undefined }`. */
  function StoreRawServiceSD(signedSD: Option<Json>, response: HttpOutcome): (r: StoreResult)
    ensures r.verified <==> Truthy(signedSD) && response.Response? && response.status == 200 && response.data != JNull
    ensures r.verified ==> r.storedSdUrl == Prop(Some(response.data), "storedSdUrl")
    ensures !r.verified ==> r.storedSdUrl.None?
  {
    var notStored := StoreResult(false, None);
    if !Truthy(signedSD) then notStored
    else
      match response
      case TransportError(_) => notStored
      case Response(status, data) =>
        if status == 409 then notStored
        else if status == 200 then
          match Member(Some(data), "storedSdUrl")
          case Failure(_) => notStored
          case Success(url) => StoreResult(true, url)
        else notStored
  }

  /** A 409 (content already stored) is a plain negative result. */
  lemma StoreConflictIsNotStored(signedSD: Option<Json>, data: Json)
    ensures StoreRawServiceSD(signedSD, Response(409, data)) == StoreResult(false, None)
  {
  }

  // ---------------------------------------------------------------------
  // verifyRawServiceCredential

  /** `{ verified: false }`, `{ verified: false, responseBody }` after a 409,
      or `{ verified: true, complianceApiVersion, idMatch }` after a 201.
      `idMatch` is `None` when `did` is falsy (the source yields `did` itself). */
  datatype VerifyResult =
    | NotVerified
    | Conflict(responseBody: Option<Json>)
    | Verified(complianceApiVersion: string, idMatch: Option<bool>)

  const ServiceOfferingType := "gx:ServiceOffering"

  /** `parsed.verifiableCredential` as an array `.find` can run on. */
  function VerifiableCredentials(parsed: Json): (r: Result<seq<Json>, string>)
    ensures r.Success? <==> parsed.JObject? && "verifiableCredential" in parsed.members
                            && parsed.members["verifiableCredential"].JArray?
    ensures r.Success? ==> r.value == parsed.members["verifiableCredential"].items
  {
    match Prop(Some(parsed), "verifiableCredential")
    case Some(JArray(items)) => Success(items)
    case _ => Failure("TypeError")
  }

  /** Whether the credential's subject has type `gx:ServiceOffering`. */
  predicate IsServiceOffering(credential: Json) {
    Prop(Prop(Some(credential), "credentialSubject"), "type") == Some(JString(ServiceOfferingType))
  }

  /** The first credential that is a service offering. */
  function FindServiceOffering(credentials: seq<Json>): (r: Option<Json>)
    ensures r.None? <==> forall k :: 0 <= k < |credentials| ==> !IsServiceOffering(credentials[k])
    ensures r.Some? ==> exists k :: 0 <= k < |credentials| && credentials[k] == r.value && IsServiceOffering(r.value)
                                    && forall j :: 0 <= j < k ==> !IsServiceOffering(credentials[j])
  {
    if |credentials| == 0 then None
    else if IsServiceOffering(credentials[0]) then Some(credentials[0])
    else
      var r := FindServiceOffering(credentials[1..]);
      assert forall k :: 1 <= k < |credentials| ==> credentials[k] == credentials[1..][k - 1];
      r
  }

  /** Case-insensitive comparison of the DID with the credential's subject id,
      short-circuiting to the DID itself when it is falsy; lower-casing an id
      that is neither a string nor absent throws. */
  function IdMatch(did: Option<string>, credentialId: Option<Json>): (r: Result<Option<bool>, string>)
    ensures did.None? || did.value == "" ==> r == Success(None)
    ensures did.Some? && did.value != "" && r.Success? ==> r.value.Some?
    ensures r == Success(Some(true)) <==>
              did.Some? && did.value != "" && credentialId.Some? && credentialId.value.JString?
              && ToLower(did.value) == ToLower(credentialId.value.s)
    ensures r.Failure? <==>
              did.Some? && did.value != "" && credentialId.Some?
              && !credentialId.value.JString? && !credentialId.value.JNull?
  {
    if did.None? || did.value == "" then Success(None)
    else
      match credentialId
      case None => Success(Some(false))
      case Some(JNull) => Success(Some(false))
      case Some(JString(s)) => Success(Some(ToLower(did.value) == ToLower(s)))
      case Some(_) => Failure("TypeError")
  }

  /** The subject id of the first service offering among the parsed
      credentials, absent when any step is missing; a TypeError when there is
      no credential array. */
  function SubjectId(parsed: Json): (r: Result<Option<Json>, string>)
    ensures r.Success? <==> VerifiableCredentials(parsed).Success?
    ensures r.Success? ==>
              r.value == Prop(Prop(FindServiceOffering(VerifiableCredentials(parsed).value), "credentialSubject"), "id")
    ensures r.Success? && r.value.Some? ==>
              exists k :: 0 <= k < |VerifiableCredentials(parsed).value|
                          && IsServiceOffering(VerifiableCredentials(parsed).value[k])
                          && r.value == Prop(Prop(Some(VerifiableCredentials(parsed).value[k]), "credentialSubject"), "id")
  {
    match VerifiableCredentials(parsed)
    case Failure(e) => Failure(e)
    case Success(credentials) => Success(Prop(Prop(FindServiceOffering(credentials), "credentialSubject"), "id"))
  }

  /** The 201 branch: compare the service offering's subject id with `did`;
      a thrown TypeError is a negative result. */
  function AcceptedResult(parsed: Json, did: Option<string>, latest: string): (r: VerifyResult)
    ensures r.NotVerified? || r.Verified?
    ensures r.Verified? <==> SubjectId(parsed).Success? && IdMatch(did, SubjectId(parsed).value).Success?
    ensures r.Verified? ==> r.complianceApiVersion == latest && r.idMatch == IdMatch(did, SubjectId(parsed).value).value
  {
    match SubjectId(parsed)
    case Failure(_) => NotVerified
    case Success(credentialId) =>
      match IdMatch(did, credentialId)
      case Failure(_) => NotVerified
      case Success(m) => Verified(latest, m)
  }

  /** `verifyRawServiceCredential(raw, did)`. Parsing happens outside the
      `try`: a malformed credential rejects; after parsing it never rejects. */
  function VerifyRawServiceCredential(raw: string, did: Option<string>, parse: string -> Option<Json>,
                                      response: HttpOutcome, latest: string): (r: Result<VerifyResult, string>)
    ensures raw == "" ==> r == Success(NotVerified)
    ensures raw != "" ==> (r.Failure? <==> parse(raw).None?)
    ensures r.Success? && r.value.Conflict? ==>
              response.Response? && response.status == 409 && response.data != JNull
              && r.value.responseBody == Prop(Some(response.data), "body")
    ensures raw != "" && parse(raw).Some? && response.Response? && response.status == 409 && response.data != JNull ==>
              r == Success(Conflict(Prop(Some(response.data), "body")))
    ensures r.Success? && r.value.Verified? ==>
              raw != "" && response.Response? && response.status == 201 && r.value.complianceApiVersion == latest
    ensures raw != "" && parse(raw).Some? && (response.TransportError? || response.status !in {201, 409}) ==>
              r == Success(NotVerified)
    ensures r.Success? && r.value.Verified? ==> r.value == AcceptedResult(parse(raw).value, did, latest)
    ensures raw != "" && parse(raw).Some? && response.Response? && response.status == 201 ==>
              r == Success(AcceptedResult(parse(raw).value, did, latest))
  {
    if raw == "" then Success(NotVerified)
    else
      match parse(raw)
      case None => Failure("SyntaxError")
      case Some(parsed) =>
        match response
        case TransportError(_) => Success(NotVerified)
        case Response(status, data) =>
          if status == 409 then
            match Member(Some(data), "body")
            case Failure(_) => Success(NotVerified)
            case Success(body) => Success(Conflict(body))
          else if status == 201 then Success(AcceptedResult(parsed, did, latest))
          else Success(NotVerified)
  }

  /** A credential offer whose only credential is a service offering with subject `subjectId`. */
  function ServiceOfferingCredential(subjectId: string): Json {
    JObject(map["verifiableCredential" := JArray([
      JObject(map["credentialSubject" := JObject(map["type" := JString(ServiceOfferingType), "id" := JString(subjectId)])])])])
  }

  /** A 201 for any offer whose first service-offering credential (index `k`
      of its credential array) has the string subject id `subjectId` is
      verified, with `idMatch` telling whether that id equals `did` up to
      letter case. */
  lemma VerifiedSubjectMatchesDid(raw: string, did: string, subjectId: string, parse: string -> Option<Json>, data: Json, latest: string,
                                  members: map<string, Json>, credentials: seq<Json>, k: nat)
    requires raw != "" && did != ""
    requires parse(raw) == Some(JObject(members))
    requires "verifiableCredential" in members && members["verifiableCredential"] == JArray(credentials)
    requires k < |credentials| && IsServiceOffering(credentials[k])
    requires forall j :: 0 <= j < k ==> !IsServiceOffering(credentials[j])
    requires Prop(Prop(Some(credentials[k]), "credentialSubject"), "id") == Some(JString(subjectId))
    ensures var r := VerifyRawServiceCredential(raw, Some(did), parse, Response(201, data), latest);
      r == Success(Verified(latest, Some(ToLower(did) == ToLower(subjectId))))
  {
    var offering := FindServiceOffering(credentials);
    var i :| 0 <= i < |credentials| && credentials[i] == offering.value && IsServiceOffering(offering.value)
             && forall j :: 0 <= j < i ==> !IsServiceOffering(credentials[j]);
    assert i == k;
  }

  /** The one-credential offer built by `ServiceOfferingCredential` is verified
      on a 201, matching exactly when its subject equals `did` up to letter case. */
  lemma ServiceOfferingCredentialVerifies(raw: string, did: string, subjectId: string, parse: string -> Option<Json>, data: Json, latest: string)
    requires raw != "" && did != ""
    requires parse(raw) == Some(ServiceOfferingCredential(subjectId))
    ensures var r := VerifyRawServiceCredential(raw, Some(did), parse, Response(201, data), latest);
      r == Success(Verified(latest, Some(ToLower(did) == ToLower(subjectId))))
  {
    var parsed := ServiceOfferingCredential(subjectId);
    var credentials := VerifiableCredentials(parsed).value;
    assert IsServiceOffering(credentials[0]);
    VerifiedSubjectMatchesDid(raw, did, subjectId, parse, data, latest, parsed.members, credentials, 0);
  }

  // ---------------------------------------------------------------------
  // updateServiceCredential

  /** The document with no `serviceSelfDescription` recorded. */
  function WithoutSelfDescription(ddo: DDO): DDO {
    var info := ddo.metadata.additionalInformation;
    ddo.(metadata := ddo.metadata.(additionalInformation :=
      info.(gaiaXInformation := info.gaiaXInformation.(serviceSelfDescription := None))))
  }

  /** Records `{ raw, url }` as `serviceSelfDescription` and changes nothing else;
      in particular the `serviceSD` the transform wrote is kept. */
  function UpdateServiceCredential(ddo: DDO, credential: ServiceCredential): (r: DDO)
    ensures r.metadata.additionalInformation.gaiaXInformation.serviceSelfDescription
            == Some(ServiceCredential(credential.raw, credential.url))
    ensures WithoutSelfDescription(r) == WithoutSelfDescription(ddo)
    ensures r.metadata.additionalInformation.gaiaXInformation.serviceSD
            == ddo.metadata.additionalInformation.gaiaXInformation.serviceSD
  {
    var info := ddo.metadata.additionalInformation;
    ddo.(metadata := ddo.metadata.(additionalInformation :=
      info.(gaiaXInformation := info.gaiaXInformation.(serviceSelfDescription := Some(ServiceCredential(credential.raw, credential.url))))))
  }

  /** Recording the same credential twice is recording it once; the last
      recorded credential wins. */
  lemma UpdateServiceCredentialOverwrites(ddo: DDO, first: ServiceCredential, second: ServiceCredential)
    ensures UpdateServiceCredential(UpdateServiceCredential(ddo, first), second) == UpdateServiceCredential(ddo, second)
  {
    var a := UpdateServiceCredential(UpdateServiceCredential(ddo, first), second);
    var b := UpdateServiceCredential(ddo, second);
    assert WithoutSelfDescription(a) == WithoutSelfDescription(b);
  }

  // ---------------------------------------------------------------------
  // getPublisherFromServiceCredential

  /** A string legal name as it is; otherwise its `@value` member, if any. */
  function UnwrapLegalName(legalName: Option<Json>): (r: Option<Json>)
    ensures legalName.Some? && legalName.value.JString? ==> r == legalName
    ensures !(legalName.Some? && legalName.value.JString?) ==> r == Prop(legalName, "@value")
  {
    if legalName.Some? && legalName.value.JString? then legalName else Prop(legalName, "@value")
  }

  /** The `gx:legalName` of the first verifiable credential's subject, absent
      when any step along the way is missing. */
  function LegalNameOf(credential: Json): Option<Json> {
    Prop(Prop(First(Prop(Some(credential), "verifiableCredential")), "credentialSubject"), "gx:legalName")
  }

  /** The publisher named by a credential given as JSON text or as a parsed
      value; `undefined` for a falsy input. Parsing is not guarded: malformed
      text rejects. */
  function GetPublisherFromServiceCredential(credential: Option<Json>, parse: string -> Option<Json>): (r: Result<Option<Json>, string>)
    ensures !Truthy(credential) ==> r == Success(None)
    ensures Truthy(credential) && credential.value.JString? ==>
              (r.Failure? <==> parse(credential.value.s).None?)
              && (r.Success? ==> r.value == UnwrapLegalName(LegalNameOf(parse(credential.value.s).value)))
    ensures Truthy(credential) && !credential.value.JString? ==> r == Success(UnwrapLegalName(LegalNameOf(credential.value)))
  {
    match credential
    case None => Success(None)
    case Some(v) =>
      if !Truthy(credential) then Success(None)
      else if v.JString? then
        match parse(v.s)
        case None => Failure("SyntaxError")
        case Some(parsed) => Success(UnwrapLegalName(LegalNameOf(parsed)))
      else Success(UnwrapLegalName(LegalNameOf(v)))
  }

  /** A legal name as credentials carry it: a plain string or a localised
      `{ '@value': ... }` wrapper. */
  datatype LegalName = PlainName(name: string) | LocalizedName(value: Json)

  function EncodeLegalName(n: LegalName): Json {
    match n
    case PlainName(s) => JString(s)
    case LocalizedName(v) => JObject(map["@value" := v])
  }

  /** The value a reader of the legal name should see. */
  function LegalNameValue(n: LegalName): Json {
    match n
    case PlainName(s) => JString(s)
    case LocalizedName(v) => v
  }

  /** A credential whose first verifiable credential names `n` as legal name. */
  function CredentialWithLegalName(n: LegalName): Json {
    JObject(map["verifiableCredential" := JArray([
      JObject(map["credentialSubject" := JObject(map["gx:legalName" := EncodeLegalName(n)])])])])
  }

  /** The publisher read back from a credential is the legal name put in,
      whether plain or localised, and whether given parsed or as text. */
  lemma PublisherRoundTrip(n: LegalName, text: string, parse: string -> Option<Json>)
    requires text != "" && parse(text) == Some(CredentialWithLegalName(n))
    ensures GetPublisherFromServiceCredential(Some(CredentialWithLegalName(n)), parse) == Success(Some(LegalNameValue(n)))
    ensures GetPublisherFromServiceCredential(Some(JString(text)), parse) == Success(Some(LegalNameValue(n)))
  {
    var c := CredentialWithLegalName(n);
    assert LegalNameOf(c) == Some(EncodeLegalName(n));
  }
}
