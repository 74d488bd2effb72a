/**
 * The outputs step of the request wizard (`request-form/pt3.tsx`): the
 * connection types an output may still use, the initial output list, the
 * `saidas` field array with its add and remove buttons, which settings
 * block the editor shows, and the submit handler.
 */
module OutputsStep {
  import opened Seqs
  import opened FormTypes
  import RequestDocument

  /** The `type` of every connection, in order. */
  function TypesOf(conns: seq<Connection>): (r: seq<string>)
    ensures |r| == |conns| && forall i :: 0 <= i < |conns| ==> r[i] == conns[i].connType
  {
    seq(|conns|, i requires 0 <= i < |conns| => conns[i].connType)
  }

  /** `uniqueTypes`: `[...new Set(entradas?.map(entry => entry.type))]`;
      `new Set(undefined)` is empty. */
  function UniqueTypes(entradas: Option<seq<Connection>>): (r: seq<string>)
    ensures entradas.None? ==> r == []
    ensures entradas.Some? ==> r == Distinct(TypesOf(entradas.value))
  {
    match entradas
    case None => []
    case Some(es) => Distinct(TypesOf(es))
  }

  /** Some stored input connection has type `t`. */
  ghost predicate UsedByInput(entradas: Option<seq<Connection>>, t: string) {
    entradas.Some? && exists j :: 0 <= j < |entradas.value| && entradas.value[j].connType == t
  }

  /** A type is in `uniqueTypes` exactly when some stored input uses it, and
      none is listed twice. */
  lemma UniqueTypesAreInputTypes(entradas: Option<seq<Connection>>, t: string)
    ensures t in UniqueTypes(entradas) <==> UsedByInput(entradas, t)
    ensures NoDuplicates(UniqueTypes(entradas))
  {
    if entradas.Some? {
      var types := TypesOf(entradas.value);
      var r := Distinct(types);
      if t in r {
        var i :| 0 <= i < |r| && r[i] == t;
        var j :| 0 <= j < |types| && types[j] == t;
        assert entradas.value[j].connType == t;
      }
      if UsedByInput(entradas, t) {
        var j :| 0 <= j < |entradas.value| && entradas.value[j].connType == t;
        assert types[j] == t;
      }
    }
  }

  /** `remainingOptions`: the catalog's output types not in `uniqueTypes`. */
  function RemainingOptions(catalog: seq<string>, entradas: Option<seq<Connection>>): (r: seq<string>)
    ensures forall i :: 0 <= i < |r| ==> r[i] in catalog && r[i] !in UniqueTypes(entradas)
    ensures forall i :: 0 <= i < |catalog| && catalog[i] !in UniqueTypes(entradas) ==> catalog[i] in r
  {
    var used := UniqueTypes(entradas);
    Filter(catalog, (o: string) => o !in used)
  }

  /** The remaining options keep the catalog's order, and none of them is
      used by a stored input. */
  lemma RemainingOptionsUnused(catalog: seq<string>, entradas: Option<seq<Connection>>)
    ensures IsSubsequence(RemainingOptions(catalog, entradas), catalog)
    ensures forall i :: 0 <= i < |RemainingOptions(catalog, entradas)| ==>
              !UsedByInput(entradas, RemainingOptions(catalog, entradas)[i])
  {
    var used := UniqueTypes(entradas);
    FilterIsSubsequence(catalog, (o: string) => o !in used);
    var r := RemainingOptions(catalog, entradas);
    forall i | 0 <= i < |r| ensures !UsedByInput(entradas, r[i]) {
      UniqueTypesAreInputTypes(entradas, r[i]);
    }
  }

  /** Every catalog option no stored input uses is offered, and with no
      stored inputs the whole catalog is. */
  lemma RemainingOptionsComplete(catalog: seq<string>, entradas: Option<seq<Connection>>)
    ensures forall i :: 0 <= i < |catalog| && !UsedByInput(entradas, catalog[i]) ==>
              catalog[i] in RemainingOptions(catalog, entradas)
    ensures entradas.None? ==> RemainingOptions(catalog, entradas) == catalog
  {
    var used := UniqueTypes(entradas);
    var r := RemainingOptions(catalog, entradas);
    forall i | 0 <= i < |catalog| && !UsedByInput(entradas, catalog[i]) ensures catalog[i] in r {
      UniqueTypesAreInputTypes(entradas, catalog[i]);
    }
    if entradas.None? {
      FilterAllKept(catalog, (o: string) => o !in used);
    }
  }

  /** A filter whose predicate holds everywhere keeps the whole list. */
  lemma {:induction false} FilterAllKept<T>(s: seq<T>, p: T -> bool)
    requires forall i :: 0 <= i < |s| ==> p(s[i])
    ensures Filter(s, p) == s
  {
    if s != [] {
      FilterAllKept(s[1..], p);
    }
  }

  /** The connection the outputs form starts with when the store holds no
      outputs. It has no `ieds` key, which every reader takes as empty. */
  const DefaultOutput: Connection :=
    Connection("Modbus", "TCP/IP", "192.168.10.87", "502", "9600", "8", "None", "1", [])

  /** `storedFormData.saidas || [DefaultOutput]`: an array is truthy even
      when empty, so only undefined outputs get the default. */
  function InitialSaidas(stored: Option<seq<Connection>>): (r: seq<Connection>)
    ensures stored.Some? ==> r == stored.value
    ensures stored.None? ==> |r| == 1 && r[0].protocolo == "Modbus" && r[0].connType == "TCP/IP" &&
                             r[0].ip == "192.168.10.87" && r[0].port == "502" &&
                             r[0].baudRate == "9600" && r[0].dataBits == "8" &&
                             r[0].parity == "None" && r[0].stopBits == "1" && r[0].ieds == []
  {
    stored.GetOr([DefaultOutput])
  }

  /** The connection "Adicionar Saída" appends. */
  const NewOutput: Connection := Connection("", "", "", "", "9600", "8", "None", "1", [])

  /** A settings input of the output editor. */
  datatype SettingsInput = IpInput | PortInput | BaudRateInput | DataBitsInput | ParityInput | StopBitsInput

  /** The settings inputs the editor shows for `c`: IP and port for a TCP/IP
      connection, the four serial inputs for any other type, never both. */
  function EditorSettings(c: Connection): (r: seq<SettingsInput>)
    ensures IpInput in r <==> c.connType == "TCP/IP"
    ensures PortInput in r <==> c.connType == "TCP/IP"
    ensures BaudRateInput in r <==> c.connType != "TCP/IP"
    ensures DataBitsInput in r && ParityInput in r && StopBitsInput in r <==> c.connType != "TCP/IP"
  {
    if c.connType == "TCP/IP" then [IpInput, PortInput]
    else [BaudRateInput, DataBitsInput, ParityInput, StopBitsInput]
  }

  /** The generated document decides by the values instead
      (`RequestDocument.ShowsIpPort`), and the two rules disagree both ways:
      a TCP/IP output whose IP is still empty is edited as TCP/IP but
      printed with its serial settings, and a serial output left with the
      default IP and port is printed as TCP/IP. */
  lemma EditorAndDocumentDisagree()
    ensures var c := NewOutput.(connType := "TCP/IP", port := "502");
            IpInput in EditorSettings(c) && !RequestDocument.ShowsIpPort(c)
    ensures var c := DefaultOutput.(connType := "RS-485");
            IpInput !in EditorSettings(c) && RequestDocument.ShowsIpPort(c)
  {
  }

  class OutputConnections {
    /** The `saidas` field array of the outputs form. */
    var saidas: seq<Connection>

    constructor (stored: Option<seq<Connection>>)
      ensures saidas == InitialSaidas(stored)
    {
      saidas := InitialSaidas(stored);
    }

    /** "Adicionar Saída": `append` of one new connection at the end. */
    method AddOutput()
      modifies this
      ensures saidas == old(saidas) + [NewOutput]
    {
      saidas := saidas + [NewOutput];
    }

    /** "Remover" of output `index`: `remove(index)`. */
    method Remove(index: nat)
      requires index < |saidas|
      modifies this
      ensures saidas == RemoveAt(old(saidas), index)
    {
      saidas := RemoveAt(saidas, index);
    }

    /** The submit handler only logs the data: it neither writes the store
        nor calls `next`. */
    method Submit() returns (callsNext: bool)
      ensures !callsNext
    {
      callsNext := false;
    }
  }

  /** Adding an output and then removing it restores the list. */
  lemma AddThenRemoveRestores(saidas: seq<Connection>)
    ensures RemoveAt(saidas + [NewOutput], |saidas|) == saidas
  {
  }
}
