/**
 * The approval request form (`approval-form/approval-form.tsx`): the
 * switch between a mapping request ("Mapeamento") and a homologation
 * request ("Homologação"), and the submit handler, which runs only on
 * values the schema accepts and fills in the requester's email and
 * department from the catalog.
 */
module ApprovalFormView {
  import opened Seqs
  import opened FormTypes
  import opened ApprovalSchema

  const Homologacao: string := "Homologação"
  const Mapeamento: string := "Mapeamento"

  /** The switch is on exactly for a homologation request. */
  predicate Checked(approval: string) {
    approval == Homologacao
  }

  /** The value the switch writes when it is turned on or off. */
  function ToggleValue(checked: bool): (approval: string)
    ensures approval == Homologacao || approval == Mapeamento
  {
    if checked then Homologacao else Mapeamento
  }

  /** Reading the switch after toggling it gives back the toggled state, and
      toggling to the state it shows keeps either request kind. */
  lemma ToggleRoundTrip(checked: bool, approval: string)
    ensures Checked(ToggleValue(checked)) == checked
    ensures approval == Homologacao || approval == Mapeamento ==> ToggleValue(Checked(approval)) == approval
  {
    assert Homologacao != Mapeamento by { assert Homologacao[0] != Mapeamento[0]; }
  }

  /** What `saveFormData` stores: the parsed record with email and
      department replaced by the catalog lookup of the requester. */
  function WithContact(f: ApprovalForm, catalog: seq<RequesterEntry>): (r: ApprovalForm)
    ensures r.email == Some(RequesterEmail(catalog, Some(f.requester)))
    ensures r.departament == Some(RequesterDepartament(catalog, Some(f.requester)))
    ensures r.(email := f.email, departament := f.departament) == f
  {
    f.(email := Some(RequesterEmail(catalog, Some(f.requester))),
       departament := Some(RequesterDepartament(catalog, Some(f.requester))))
  }

  /** Filling in the contact keeps a record within the schema. */
  lemma WithContactSatisfiesSchema(f: ApprovalForm, catalog: seq<RequesterEntry>, isUrl: string -> bool)
    requires SatisfiesSchema(f, isUrl)
    ensures SatisfiesSchema(WithContact(f, catalog), isUrl)
    ensures Parse(ToInput(WithContact(f, catalog)), isUrl) == Success(WithContact(f, catalog))
  {
    ParseToInputRoundTrip(WithContact(f, catalog), isUrl);
  }

  class ApprovalRequestForm {
    /** The `approval` field, driven by the switch. */
    var approval: string
    /** The component state `formData`. */
    var formData: Option<ApprovalForm>
    const catalog: seq<RequesterEntry>
    const isUrl: string -> bool

    /** A stored record satisfies the schema and carries the catalog
        contact of its requester. */
    ghost predicate Valid()
      reads this
    {
      formData.Some? ==>
        && SatisfiesSchema(formData.value, isUrl)
        && formData.value.email == Some(RequesterEmail(catalog, Some(formData.value.requester)))
        && formData.value.departament == Some(RequesterDepartament(catalog, Some(formData.value.requester)))
    }

    constructor (catalog: seq<RequesterEntry>, isUrl: string -> bool)
      ensures Valid()
      ensures approval == Mapeamento && formData == None
      ensures this.catalog == catalog && this.isUrl == isUrl
    {
      approval := Mapeamento;
      formData := None;
      this.catalog := catalog;
      this.isUrl := isUrl;
    }

    /** `onCheckedChange(checked)`. */
    method Toggle(checked: bool)
      requires Valid()
      modifies this
      ensures Valid()
      ensures approval == ToggleValue(checked) && Checked(approval) == checked
      ensures formData == old(formData)
    {
      approval := ToggleValue(checked);
      ToggleRoundTrip(checked, approval);
    }

    /** `handleSubmit(saveFormData)` on the other raw values: the schema
        parses them together with the switch's value; on success the
        record, with the looked-up contact, becomes `formData`. */
    method Submit(raw: ApprovalInput) returns (accepted: bool)
      requires Valid()
      modifies this
      ensures Valid()
      ensures approval == old(approval)
      ensures accepted <==> Parse(raw.(approval := Some(old(approval))), isUrl).Success?
      ensures accepted ==> formData == Some(WithContact(Parse(raw.(approval := Some(old(approval))), isUrl).value, catalog))
      ensures !accepted ==> formData == old(formData)
    {
      var parsed := Parse(raw.(approval := Some(approval)), isUrl);
      accepted := parsed.Success?;
      if accepted {
        WithContactSatisfiesSchema(parsed.value, catalog, isUrl);
        formData := Some(WithContact(parsed.value, catalog));
      }
    }
  }
}
