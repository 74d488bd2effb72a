/**
 * The general-information step of the request wizard
 * (`request-form/pt1.tsx`): a form over the general fields with "SDG" as
 * the default gateway, whose submit handler runs only after schema
 * validation passes, fills in the requester's email and department from
 * the catalog, keeps the result in the component's own state and calls
 * `next`. The schema itself is not part of this model; whether it accepts
 * is the parameter `valid`.
 */
module GeneralInfoStep {
  import opened Seqs
  import opened FormTypes
  import RequestStore

  /** The general fields the step edits. */
  datatype GeneralInfo = GeneralInfo(
    requester: Option<string>, email: Option<string>, departament: Option<string>,
    client: Option<string>, project: Option<string>,
    invoiceNumber: Option<string>, clientNumber: Option<string>,
    gateway: Option<string>, sigmaConnection: Option<string>)

  /** The form's `defaultValues`: only the gateway is preset. */
  const DefaultValues: GeneralInfo :=
    GeneralInfo(None, None, None, None, None, None, None, Some("SDG"), None)

  /** The options of the Sigma connection select. */
  const SigmaConnectionChoices: seq<string> := ["Sem comunicação", "Comunicação normal", "SigmaSync"]

  datatype GatewayPicture = SDgPicture | SDpPicture

  /** The picture next to the gateway select: the SD+ picture for "SD+",
      the SDG picture for anything else, an unset gateway included. */
  function GatewayPictureOf(gateway: Option<string>): (p: GatewayPicture)
    ensures p == SDpPicture <==> gateway == Some("SD+")
  {
    if gateway == Some("SD+") then SDpPicture else SDgPicture
  }

  /** The default gateway shows the SDG picture. */
  lemma DefaultGatewayPicture()
    ensures DefaultValues.gateway == Some("SDG")
    ensures GatewayPictureOf(DefaultValues.gateway) == SDgPicture
  {
  }

  /** Email and department agree with the catalog entry of the requester. */
  ghost predicate ContactFromCatalog(data: GeneralInfo, catalog: seq<RequesterEntry>) {
    && data.email == Some(RequesterEmail(catalog, data.requester))
    && data.departament == Some(RequesterDepartament(catalog, data.requester))
  }

  /** What `saveFormData` stores: the submitted data with email and
      department replaced by the catalog lookup of the requester. */
  function Saved(data: GeneralInfo, catalog: seq<RequesterEntry>): (r: GeneralInfo)
    ensures ContactFromCatalog(r, catalog)
    ensures r.(email := data.email, departament := data.departament) == data
  {
    data.(email := Some(RequesterEmail(catalog, data.requester)),
          departament := Some(RequesterDepartament(catalog, data.requester)))
  }

  /** Whatever the user typed into email or department is discarded, so
      saving twice is saving once. */
  lemma SavedIdempotent(data: GeneralInfo, catalog: seq<RequesterEntry>)
    ensures Saved(Saved(data, catalog), catalog) == Saved(data, catalog)
    ensures forall e, d :: Saved(data.(email := e, departament := d), catalog) == Saved(data, catalog)
  {
  }

  class GeneralInfoForm {
    /** The values currently in the form. */
    var values: GeneralInfo
    /** The component state `formData`, set by a successful submit. */
    var formData: Option<GeneralInfo>
    /** The requester catalog. */
    const catalog: seq<RequesterEntry>

    ghost predicate Valid()
      reads this
    {
      formData.Some? ==> ContactFromCatalog(formData.value, catalog)
    }

    constructor (catalog: seq<RequesterEntry>)
      ensures Valid()
      ensures values == DefaultValues && formData == None && this.catalog == catalog
    {
      values := DefaultValues;
      formData := None;
      this.catalog := catalog;
    }

    /** `handleSubmit(saveFormData)`: when the schema accepts the values
        (`valid`), store them with the looked-up contact and call `next`
        if the step was given one. The shared store is not written. */
    method Submit(valid: bool, hasNext: bool, store: RequestStore.Store) returns (callsNext: bool)
      requires Valid()
      modifies this
      ensures Valid()
      ensures values == old(values)
      ensures valid ==> formData == Some(Saved(old(values), catalog))
      ensures !valid ==> formData == old(formData)
      ensures callsNext <==> valid && hasNext
      ensures store.state == old(store.state)
    {
      callsNext := false;
      if valid {
        formData := Some(Saved(values, catalog));
        callsNext := hasNext;
      }
    }
  }
}
