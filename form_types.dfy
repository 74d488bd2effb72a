/**
 * The records the request wizard passes around (a general-info block, input
 * and output connections, the IEDs attached to them) and the two catalog
 * lookups every step shares: requester -> email/department and
 * IED name -> manufacturer. The catalogs themselves (`request-info.json`,
 * `ieds-info.json`) are parameters.
 */
module FormTypes {
  import opened Seqs

  /** An IED address: what the user typed into the number input, or a
      number the code filled in (`fields.length + 1`, `index + 1`). */
  datatype Address = Typed(text: string) | Number(n: nat)

  /** One IED attached to a connection. */
  datatype Ied = Ied(name: string, manufacturer: string, address: Address, modules: string, optional: string)

  /** One input or output connection. `connType` is the source's `type`
      ("TCP/IP" or a serial kind); the serial settings are kept even for
      TCP/IP connections, as the form does. */
  datatype Connection = Connection(
    protocolo: string, connType: string,
    ip: string, port: string,
    baudRate: string, dataBits: string, parity: string, stopBits: string,
    ieds: seq<Ied>)

  /** A `{ nome, fabricante }` entry: a catalog IED or the identity of an
      IED already entered. */
  datatype IedRef = IedRef(nome: string, fabricante: string)

  /** One entry of the requester catalog. */
  datatype RequesterEntry = RequesterEntry(name: string, email: string, departament: string)

  /** The home manufacturer, whose IEDs are listed apart from third parties. */
  const Treetech: string := "Treetech"

  function RefOf(ied: Ied): IedRef {
    IedRef(ied.name, ied.manufacturer)
  }

  function Refs(ieds: seq<Ied>): (r: seq<IedRef>)
    ensures |r| == |ieds| && forall i :: 0 <= i < |ieds| ==> r[i] == RefOf(ieds[i])
  {
    seq(|ieds|, i requires 0 <= i < |ieds| => RefOf(ieds[i]))
  }

  function IedsOf(c: Connection): seq<Ied> {
    c.ieds
  }

  /** `conns.flatMap(entry => entry.ieds)`. */
  function AllIedsOf(conns: seq<Connection>): seq<Ied> {
    FlatMap(conns, IedsOf)
  }

  /** `pool.find(ied => ied.nome === name)`. */
  function FindIed(pool: seq<IedRef>, name: string): (r: Option<IedRef>)
    ensures r.Some? <==> exists i :: 0 <= i < |pool| && pool[i].nome == name
    ensures r.Some? ==> exists i :: 0 <= i < |pool| && pool[i] == r.value && pool[i].nome == name &&
                                    forall j :: 0 <= j < i ==> pool[j].nome != name
  {
    match FindFirst(pool, (e: IedRef) => e.nome == name)
    case None => None
    case Some(i) => Some(pool[i])
  }

  /** Looking a name up in `a + b` finds it in `a` whenever `a` has it,
      and in `b` otherwise. */
  lemma FindIedPrefersFirstCatalog(a: seq<IedRef>, b: seq<IedRef>, name: string)
    ensures FindIed(a, name).Some? ==> FindIed(a + b, name) == FindIed(a, name)
    ensures FindIed(a, name).None? ==> FindIed(a + b, name) == FindIed(b, name)
  {
    if FindIed(a, name).Some? {
      FindIedInFirst(a, b, name);
    } else {
      FindIedInSecond(a, b, name);
    }
  }

  lemma FindIedInFirst(a: seq<IedRef>, b: seq<IedRef>, name: string)
    requires FindIed(a, name).Some?
    ensures FindIed(a + b, name) == FindIed(a, name)
  {
    var ab := a + b;
    var e := FindIed(a, name).value;
    var i :| 0 <= i < |a| && a[i] == e && a[i].nome == name && forall j :: 0 <= j < i ==> a[j].nome != name;
    assert ab[i] == a[i];
    var r := FindIed(ab, name);
    var k :| 0 <= k < |ab| && ab[k] == r.value && ab[k].nome == name && forall j :: 0 <= j < k ==> ab[j].nome != name;
    assert k == i;
  }

  lemma FindIedInSecond(a: seq<IedRef>, b: seq<IedRef>, name: string)
    requires FindIed(a, name).None?
    ensures FindIed(a + b, name) == FindIed(b, name)
  {
    var ab := a + b;
    if FindIed(b, name).Some? {
      var e := FindIed(b, name).value;
      var i :| 0 <= i < |b| && b[i] == e && b[i].nome == name && forall j :: 0 <= j < i ==> b[j].nome != name;
      assert ab[|a| + i] == b[i];
      var r := FindIed(ab, name);
      var k :| 0 <= k < |ab| && ab[k] == r.value && ab[k].nome == name && forall j :: 0 <= j < k ==> ab[j].nome != name;
      assert k == |a| + i;
    } else {
      forall k | 0 <= k < |ab| ensures ab[k].nome != name {
        if k < |a| { assert ab[k] == a[k]; } else { assert ab[k] == b[k - |a|]; }
      }
    }
  }


  predicate IsTreetech(r: IedRef) {
    r.fabricante == Treetech
  }

  predicate IsThirdParty(r: IedRef) {
    r.fabricante != Treetech
  }

  function NomeOf(r: IedRef): string {
    r.nome
  }

  /** `refs.sort((a, b) => a.nome.localeCompare(b.nome))`, for a comparator
      whose "no later than" is `le`. */
  function SortByName(refs: seq<IedRef>, le: (string, string) -> bool): seq<IedRef> {
    SortBy(refs, NomeOf, le)
  }

  /** `refs.filter(ied => ied.fabricante !== "Treetech")` sorted by name:
      the third-party entries, repeats included. */
  function ThirdPartySorted(refs: seq<IedRef>, le: (string, string) -> bool): (r: seq<IedRef>)
    ensures forall i :: 0 <= i < |r| ==> IsThirdParty(r[i])
    ensures multiset(r) == multiset(Filter(refs, IsThirdParty))
  {
    var f := Filter(refs, IsThirdParty);
    var r := SortByName(f, le);
    assert forall i :: 0 <= i < |r| ==> r[i] in multiset(f);
    r
  }

  /** Under a total preorder the list is in name order. */
  lemma ThirdPartySortedIsSorted(refs: seq<IedRef>, le: (string, string) -> bool)
    requires TotalPreorder(le)
    ensures SortedBy(ThirdPartySorted(refs, le), NomeOf, le)
  {
    SortBySorted(Filter(refs, IsThirdParty), NomeOf, le);
  }

  /** The first catalog entry whose name equals `requester`
      (`info.requester.find(item => item.name === requester)`). */
  function FindRequester(catalog: seq<RequesterEntry>, requester: Option<string>): (r: Option<RequesterEntry>)
  {
    match requester
    case None => None
    case Some(name) =>
      match FindFirst(catalog, (e: RequesterEntry) => e.name == name)
      case None => None
      case Some(i) => Some(catalog[i])
  }

  /** `find(...)?.email || ""`: the email of the first requester with that
      name, or the empty string when there is none. */
  function RequesterEmail(catalog: seq<RequesterEntry>, requester: Option<string>): (email: string)
    ensures requester.None? ==> email == ""
    ensures requester.Some? && (forall i :: 0 <= i < |catalog| ==> catalog[i].name != requester.value) ==> email == ""
    ensures forall i :: 0 <= i < |catalog| && requester == Some(catalog[i].name) &&
                        (forall j :: 0 <= j < i ==> catalog[j].name != catalog[i].name)
                        ==> email == catalog[i].email
  {
    match FindRequester(catalog, requester)
    case None => ""
    case Some(e) => e.email
  }

  /** The same lookup for the department, with the same empty fallback. */
  function RequesterDepartament(catalog: seq<RequesterEntry>, requester: Option<string>): (departament: string)
    ensures requester.None? ==> departament == ""
    ensures requester.Some? && (forall i :: 0 <= i < |catalog| ==> catalog[i].name != requester.value) ==> departament == ""
    ensures forall i :: 0 <= i < |catalog| && requester == Some(catalog[i].name) &&
                        (forall j :: 0 <= j < i ==> catalog[j].name != catalog[i].name)
                        ==> departament == catalog[i].departament
  {
    match FindRequester(catalog, requester)
    case None => ""
    case Some(e) => e.departament
  }

  /** Every field of the request form; the wizard's steps each fill a part.
      A field is None until something sets it. */
  datatype RequestForm = RequestForm(
    requester: Option<string>, email: Option<string>, departament: Option<string>,
    client: Option<string>, project: Option<string>,
    invoiceNumber: Option<string>, clientNumber: Option<string>,
    gateway: Option<string>, sigmaConnection: Option<string>,
    entradas: Option<seq<Connection>>, saidas: Option<seq<Connection>>)
}
