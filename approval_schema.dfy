/**
 * The approval request's validation schema (`approval-form/types.ts`):
 * which raw form values it accepts, which fields it reports when it
 * rejects, and the record it produces, with "Mapeamento" as the default
 * request kind. Whether a string is a URL is left to the parameter
 * `isUrl`.
 */
module ApprovalSchema {
  import opened Seqs

  /** The raw form values; None is a field the user never filled in. */
  datatype ApprovalInput = ApprovalInput(
    approval: Option<string>, requester: Option<string>,
    email: Option<string>, departament: Option<string>,
    client: Option<string>, manufacturer: Option<string>, url: Option<string>,
    name: Option<string>, deviceType: Option<string>, documentType: Option<string>,
    protocols: Option<string>, comments: Option<string>)

  /** The record the schema produces (`ApprovalFormType`). `deviceType` is
      the source's `type`. */
  datatype ApprovalForm = ApprovalForm(
    approval: string, requester: string,
    email: Option<string>, departament: Option<string>,
    client: string, manufacturer: string, url: string,
    name: string, deviceType: string, documentType: string,
    protocols: string, comments: Option<string>)

  /** The fields that carry a rule. */
  datatype ApprovalField =
    | Approval | Requester | Email | Departament | Client | Manufacturer
    | Url | Name | DeviceType | DocumentType | Protocols | Comments

  const DefaultApproval: string := "Mapeamento"

  /** `z.string().min(n)`: a string of at least `n` characters. */
  predicate MinLength(v: Option<string>, n: nat) {
    v.Some? && |v.value| >= n
  }

  /** Whether the raw value of `f` passes its rule. */
  predicate FieldAccepted(raw: ApprovalInput, f: ApprovalField, isUrl: string -> bool) {
    match f
    case Approval => true
    case Requester => MinLength(raw.requester, 3) && raw.requester.value != ""
    case Email => true
    case Departament => true
    case Client => MinLength(raw.client, 3)
    case Manufacturer => MinLength(raw.manufacturer, 3)
    case Url => raw.url.Some? && isUrl(raw.url.value)
    case Name => MinLength(raw.name, 2)
    case DeviceType => MinLength(raw.deviceType, 3)
    case DocumentType => MinLength(raw.documentType, 3)
    case Protocols => raw.protocols.Some? && raw.protocols.value != ""
    case Comments => true
  }

  /** The fields the schema reports for `raw`. */
  function Issues(raw: ApprovalInput, isUrl: string -> bool): (e: set<ApprovalField>)
    ensures forall f :: f in e <==> !FieldAccepted(raw, f, isUrl)
  {
    (if FieldAccepted(raw, Requester, isUrl) then {} else {Requester})
    + (if FieldAccepted(raw, Client, isUrl) then {} else {Client})
    + (if FieldAccepted(raw, Manufacturer, isUrl) then {} else {Manufacturer})
    + (if FieldAccepted(raw, Url, isUrl) then {} else {Url})
    + (if FieldAccepted(raw, Name, isUrl) then {} else {Name})
    + (if FieldAccepted(raw, DeviceType, isUrl) then {} else {DeviceType})
    + (if FieldAccepted(raw, DocumentType, isUrl) then {} else {DocumentType})
    + (if FieldAccepted(raw, Protocols, isUrl) then {} else {Protocols})
  }

  /** A record the schema could have produced: every rule holds of its
      values. */
  predicate SatisfiesSchema(f: ApprovalForm, isUrl: string -> bool) {
    && |f.requester| >= 3
    && |f.client| >= 3 && |f.manufacturer| >= 3
    && isUrl(f.url)
    && |f.name| >= 2 && |f.deviceType| >= 3 && |f.documentType| >= 3
    && f.protocols != ""
  }

  /** The record carries the raw values, with the default for a missing
      request kind. */
  ghost predicate Carries(f: ApprovalForm, raw: ApprovalInput) {
    && f.approval == raw.approval.GetOr(DefaultApproval)
    && Some(f.requester) == raw.requester
    && f.email == raw.email && f.departament == raw.departament
    && Some(f.client) == raw.client && Some(f.manufacturer) == raw.manufacturer
    && Some(f.url) == raw.url && Some(f.name) == raw.name
    && Some(f.deviceType) == raw.deviceType && Some(f.documentType) == raw.documentType
    && Some(f.protocols) == raw.protocols && f.comments == raw.comments
  }

  /** `approvalScheema.safeParse(raw)`: the parsed record, or the set of
      fields whose rule fails. */
  function Parse(raw: ApprovalInput, isUrl: string -> bool): (r: Result<ApprovalForm, set<ApprovalField>>)
    ensures r.Success? ==> SatisfiesSchema(r.value, isUrl) && Carries(r.value, raw)
    ensures r.Failure? ==> r.error != {} && forall f :: f in r.error <==> !FieldAccepted(raw, f, isUrl)
  {
    var issues := Issues(raw, isUrl);
    if issues != {} then Failure(issues)
    else
      assert FieldAccepted(raw, Requester, isUrl) && FieldAccepted(raw, Client, isUrl);
      assert FieldAccepted(raw, Manufacturer, isUrl) && FieldAccepted(raw, Url, isUrl);
      assert FieldAccepted(raw, Name, isUrl) && FieldAccepted(raw, DeviceType, isUrl);
      assert FieldAccepted(raw, DocumentType, isUrl) && FieldAccepted(raw, Protocols, isUrl);
      Success(ApprovalForm(
        raw.approval.GetOr(DefaultApproval), raw.requester.value,
        raw.email, raw.departament,
        raw.client.value, raw.manufacturer.value, raw.url.value,
        raw.name.value, raw.deviceType.value, raw.documentType.value,
        raw.protocols.value, raw.comments))
  }

  /** The raw values a record came from. */
  function ToInput(f: ApprovalForm): ApprovalInput {
    ApprovalInput(
      Some(f.approval), Some(f.requester), f.email, f.departament,
      Some(f.client), Some(f.manufacturer), Some(f.url),
      Some(f.name), Some(f.deviceType), Some(f.documentType),
      Some(f.protocols), f.comments)
  }

  /** The schema accepts exactly the records that satisfy it: entering a
      satisfying record's values parses back to that record. */
  lemma ParseToInputRoundTrip(f: ApprovalForm, isUrl: string -> bool)
    requires SatisfiesSchema(f, isUrl)
    ensures Parse(ToInput(f), isUrl) == Success(f)
  {
    var r := Parse(ToInput(f), isUrl);
    assert Issues(ToInput(f), isUrl) == {};
  }

  /** Every parsed record, fed back through the form, parses to itself. */
  lemma ParseIsStable(raw: ApprovalInput, isUrl: string -> bool)
    requires Parse(raw, isUrl).Success?
    ensures Parse(ToInput(Parse(raw, isUrl).value), isUrl) == Parse(raw, isUrl)
  {
    ParseToInputRoundTrip(Parse(raw, isUrl).value, isUrl);
  }

  /** A missing request kind becomes "Mapeamento"; a present one is kept. */
  lemma ApprovalDefaults(raw: ApprovalInput, isUrl: string -> bool)
    requires Parse(raw, isUrl).Success?
    ensures raw.approval.None? ==> Parse(raw, isUrl).value.approval == "Mapeamento"
    ensures raw.approval.Some? ==> Parse(raw, isUrl).value.approval == raw.approval.value
  {
  }

  /** Leaving email, department, comments or the request kind out never
      changes whether the form is accepted. */
  lemma OptionalFieldsNeverReject(raw: ApprovalInput, isUrl: string -> bool)
    ensures Parse(raw.(email := None, departament := None, comments := None, approval := None), isUrl).Success?
            == Parse(raw, isUrl).Success?
  {
    var stripped := raw.(email := None, departament := None, comments := None, approval := None);
    forall f ensures FieldAccepted(stripped, f, isUrl) == FieldAccepted(raw, f, isUrl) {
    }
    assert forall f :: f in Issues(stripped, isUrl) <==> f in Issues(raw, isUrl);
    assert Issues(stripped, isUrl) == Issues(raw, isUrl);
  }

  /** The length rules: a too-short or missing value is reported. */
  lemma ShortValuesRejected(raw: ApprovalInput, isUrl: string -> bool)
    ensures !MinLength(raw.requester, 3) ==> Parse(raw, isUrl).Failure? && Requester in Parse(raw, isUrl).error
    ensures !MinLength(raw.client, 3) ==> Parse(raw, isUrl).Failure? && Client in Parse(raw, isUrl).error
    ensures !MinLength(raw.manufacturer, 3) ==> Parse(raw, isUrl).Failure? && Manufacturer in Parse(raw, isUrl).error
    ensures !MinLength(raw.name, 2) ==> Parse(raw, isUrl).Failure? && Name in Parse(raw, isUrl).error
    ensures !MinLength(raw.deviceType, 3) ==> Parse(raw, isUrl).Failure? && DeviceType in Parse(raw, isUrl).error
    ensures !MinLength(raw.documentType, 3) ==> Parse(raw, isUrl).Failure? && DocumentType in Parse(raw, isUrl).error
    ensures !MinLength(raw.protocols, 1) ==> Parse(raw, isUrl).Failure? && Protocols in Parse(raw, isUrl).error
  {
    assert !MinLength(raw.requester, 3) ==> Requester in Issues(raw, isUrl);
    assert !MinLength(raw.client, 3) ==> Client in Issues(raw, isUrl);
    assert !MinLength(raw.manufacturer, 3) ==> Manufacturer in Issues(raw, isUrl);
    assert !MinLength(raw.name, 2) ==> Name in Issues(raw, isUrl);
    assert !MinLength(raw.deviceType, 3) ==> DeviceType in Issues(raw, isUrl);
    assert !MinLength(raw.documentType, 3) ==> DocumentType in Issues(raw, isUrl);
    assert !MinLength(raw.protocols, 1) ==> Protocols in Issues(raw, isUrl);
  }
}
