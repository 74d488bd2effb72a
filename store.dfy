/**
 * The shared request-form store (`useRequestStore`): one record of form
 * fields, initially holding none of them, that `setData(partial)` updates
 * by a shallow merge. The session-storage persistence around it is not
 * modelled.
 */
module RequestStore {
  import opened Seqs
  import opened FormTypes

  /** The top-level keys of the request form. */
  datatype FormKey =
    | Requester | Email | Departament | Client | Project
    | InvoiceNumber | ClientNumber | Gateway | SigmaConnection
    | Entradas | Saidas

  datatype FormValue = Text(text: string) | Connections(list: seq<Connection>)

  /** The store's state: a key that is absent reads as `undefined`. */
  type FormState = map<FormKey, FormValue>

  /** A `Partial<RequestForm>` passed to `setData`: a key mapped to None is
      present with the value `undefined`. */
  type Update = map<FormKey, Option<FormValue>>

  predicate IsListKey(k: FormKey) {
    k == Entradas || k == Saidas
  }

  /** Each key holds a value of its declared type. */
  ghost predicate WellTyped(s: FormState) {
    forall k :: k in s ==> (s[k].Connections? <==> IsListKey(k))
  }

  ghost predicate UpdateWellTyped(p: Update) {
    forall k :: k in p && p[k].Some? ==> (p[k].value.Connections? <==> IsListKey(k))
  }

  /** Zustand's `set(partial)`: `Object.assign({}, state, partial)`. */
  function Merge(s: FormState, p: Update): (r: FormState)
    ensures forall k :: k in p ==> (k in r <==> p[k].Some?)
    ensures forall k :: k in p && p[k].Some? ==> r[k] == p[k].value
    ensures forall k :: k !in p ==> (k in r <==> k in s)
    ensures forall k :: k !in p && k in s ==> r[k] == s[k]
  {
    map k | k in s.Keys + p.Keys && (k in p ==> p[k].Some?) :: if k in p then p[k].value else s[k]
  }

  /** `setData({})` changes nothing. */
  lemma MergeEmpty(s: FormState)
    ensures Merge(s, map[]) == s
  {
    var r := Merge(s, map[]);
    assert r.Keys == s.Keys;
  }

  /** Applying the same update twice is the same as applying it once. */
  lemma MergeIdempotent(s: FormState, p: Update)
    ensures Merge(Merge(s, p), p) == Merge(s, p)
  {
    var once := Merge(s, p);
    var twice := Merge(once, p);
    assert twice.Keys == once.Keys;
  }

  /** A well-typed update keeps the state well-typed. */
  lemma MergeWellTyped(s: FormState, p: Update)
    requires WellTyped(s) && UpdateWellTyped(p)
    ensures WellTyped(Merge(s, p))
  {
  }

  function TextField(s: FormState, k: FormKey): Option<string> {
    if k in s && s[k].Text? then Some(s[k].text) else None
  }

  function ListField(s: FormState, k: FormKey): Option<seq<Connection>> {
    if k in s && s[k].Connections? then Some(s[k].list) else None
  }

  /** Field value `v` is what text key `k` of `s` reads as. */
  predicate ReadsText(s: FormState, k: FormKey, v: Option<string>) {
    (k in s ==> s[k].Text? && v == Some(s[k].text)) && (k !in s ==> v == None)
  }

  /** Field value `v` is what list key `k` of `s` reads as. */
  predicate ReadsList(s: FormState, k: FormKey, v: Option<seq<Connection>>) {
    (k in s ==> s[k].Connections? && v == Some(s[k].list)) && (k !in s ==> v == None)
  }

  /** The store read as a `RequestForm` (what `useRequestStore(state => state)`
      returns): each field holds its key's value, or is undefined when the
      key is absent. */
  function View(s: FormState): (f: RequestForm)
    requires WellTyped(s)
    ensures ReadsText(s, Requester, f.requester) && ReadsText(s, Email, f.email)
    ensures ReadsText(s, Departament, f.departament) && ReadsText(s, Client, f.client)
    ensures ReadsText(s, Project, f.project) && ReadsText(s, InvoiceNumber, f.invoiceNumber)
    ensures ReadsText(s, ClientNumber, f.clientNumber) && ReadsText(s, Gateway, f.gateway)
    ensures ReadsText(s, SigmaConnection, f.sigmaConnection)
    ensures ReadsList(s, Entradas, f.entradas) && ReadsList(s, Saidas, f.saidas)
  {
    RequestForm(
      TextField(s, Requester), TextField(s, Email), TextField(s, Departament),
      TextField(s, Client), TextField(s, Project),
      TextField(s, InvoiceNumber), TextField(s, ClientNumber),
      TextField(s, Gateway), TextField(s, SigmaConnection),
      ListField(s, Entradas), ListField(s, Saidas))
  }

  /** Storing the outputs changes the `saidas` field of the view and no
      other field. */
  lemma SetSaidasChangesOnlySaidas(s: FormState, conns: seq<Connection>)
    requires WellTyped(s)
    ensures WellTyped(Merge(s, map[Saidas := Some(Connections(conns))]))
    ensures View(Merge(s, map[Saidas := Some(Connections(conns))])) == View(s).(saidas := Some(conns))
  {
    var p := map[Saidas := Some(Connections(conns))];
    MergeWellTyped(s, p);
  }

  /** Storing the general information leaves both connection lists as they were. */
  lemma SetTextKeepsConnections(s: FormState, p: Update)
    requires WellTyped(s) && UpdateWellTyped(p) && Entradas !in p && Saidas !in p
    ensures WellTyped(Merge(s, p))
    ensures View(Merge(s, p)).entradas == View(s).entradas
    ensures View(Merge(s, p)).saidas == View(s).saidas
  {
    MergeWellTyped(s, p);
  }

  /** The initial store holds no form field: every field reads as undefined. */
  lemma InitialStateEmpty()
    ensures View(map[]) == RequestForm(None, None, None, None, None, None, None, None, None, None, None)
  {
  }

  class Store {
    var state: FormState

    ghost predicate Valid()
      reads this
    {
      WellTyped(state)
    }

    constructor ()
      ensures Valid() && state == map[]
    {
      state := map[];
    }

    /** `setData: (data) => set(data)`. */
    method SetData(p: Update)
      requires Valid() && UpdateWellTyped(p)
      modifies this
      ensures Valid()
      ensures state == Merge(old(state), p)
      ensures forall k :: k !in p ==> (k in state <==> k in old(state))
      ensures forall k :: k !in p && k in old(state) ==> state[k] == old(state)[k]
    {
      MergeWellTyped(state, p);
      state := Merge(state, p);
    }
  }
}
