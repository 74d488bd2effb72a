/**
 * The request document (`request-form/pdf-document.tsx`): a summary page
 * with the general information, the protocols in use and the third-party
 * IEDs, then a page of input connections and a page of output connections
 * when there are any. Rendering a request whose inputs were never set
 * fails, because the third-party list is computed from them without a
 * check.
 */
module RequestDocument {
  import opened Seqs
  import opened FormTypes
  import opened Doc

  /** The `protocolo` of every connection, in order. */
  function ProtocolsOf(conns: seq<Connection>): (r: seq<string>)
    ensures |r| == |conns| && forall i :: 0 <= i < |conns| ==> r[i] == conns[i].protocolo
  {
    seq(|conns|, i requires 0 <= i < |conns| => conns[i].protocolo)
  }

  /** `[...new Set(conns?.map(c => c.protocolo) || [])]`. */
  function ProtocolList(conns: Option<seq<Connection>>): (r: seq<string>)
    ensures conns.None? ==> r == []
    ensures conns.Some? ==> r == Distinct(ProtocolsOf(conns.value))
  {
    match conns
    case None => []
    case Some(cs) => Distinct(ProtocolsOf(cs))
  }

  /** Each protocol in use is listed once and nothing else is listed. */
  lemma ProtocolListContents(conns: seq<Connection>, p: string)
    ensures NoDuplicates(ProtocolList(Some(conns)))
    ensures p in ProtocolList(Some(conns)) <==> exists i :: 0 <= i < |conns| && conns[i].protocolo == p
  {
    var ps := ProtocolsOf(conns);
    var r := Distinct(ps);
    if p in r {
      var k :| 0 <= k < |r| && r[k] == p;
      var i :| 0 <= i < |ps| && ps[i] == p;
      assert conns[i].protocolo == p;
    }
    if exists i :: 0 <= i < |conns| && conns[i].protocolo == p {
      var i :| 0 <= i < |conns| && conns[i].protocolo == p;
      assert ps[i] == p;
    }
  }

  /** The list follows the order in which the protocols first appear. */
  lemma ProtocolListOrder(conns: seq<Connection>, k: nat, l: nat)
    requires k < l < |ProtocolList(Some(conns))|
    ensures FirstIndex(ProtocolsOf(conns), ProtocolList(Some(conns))[k]) <
            FirstIndex(ProtocolsOf(conns), ProtocolList(Some(conns))[l])
  {
    DistinctKeepsFirstOccurrenceOrder(ProtocolsOf(conns), k, l);
  }

  /** `thirdPartIeds`: the `{nome, fabricante}` pairs of the input IEDs not
      made by Treetech, sorted by name, repeats kept. */
  function ThirdPartyOf(entradas: seq<Connection>, le: (string, string) -> bool): (r: seq<IedRef>)
    ensures forall i :: 0 <= i < |r| ==> IsThirdParty(r[i])
  {
    ThirdPartySorted(Refs(AllIedsOf(entradas)), le)
  }

  /** Every third-party input IED is listed as often as it occurs among the
      inputs, and under a total preorder the list is in name order. */
  lemma ThirdPartyOfContents(entradas: seq<Connection>, le: (string, string) -> bool, x: IedRef)
    ensures IsThirdParty(x) ==> multiset(ThirdPartyOf(entradas, le))[x] == multiset(Refs(AllIedsOf(entradas)))[x]
    ensures !IsThirdParty(x) ==> multiset(ThirdPartyOf(entradas, le))[x] == 0
    ensures TotalPreorder(le) ==> SortedBy(ThirdPartyOf(entradas, le), NomeOf, le)
  {
    var all := Refs(AllIedsOf(entradas));
    if IsThirdParty(x) {
      FilterCount(all, IsThirdParty, x);
    }
    if TotalPreorder(le) {
      ThirdPartySortedIsSorted(all, le);
    }
  }

  /** One entry of the mapped list: the name preceded by a space. */
  function SpacedName(r: IedRef): string {
    " " + r.nome
  }

  /** The names as the cell renders them: the mapped entries, which React
      concatenates, in the order of `t`. */
  function SpacedNames(t: seq<IedRef>): (cell: string)
    ensures t == [] <==> cell == ""
    ensures t != [] ==> cell[0] == ' '
  {
    if t == [] then "" else " " + t[0].nome + SpacedNames(t[1..])
  }

  /** The cell is `t.map(ied => " " + ied.nome)` with the entries
      concatenated in order. */
  lemma {:induction false} SpacedNamesIsFlatMap(t: seq<IedRef>)
    ensures SpacedNames(t) == FlatMap(t, SpacedName)
  {
    if t != [] {
      SpacedNamesIsFlatMap(t[1..]);
    }
  }

  /** The cell of a concatenation is the concatenation of the cells. */
  lemma {:induction false} SpacedNamesConcat(a: seq<IedRef>, b: seq<IedRef>)
    ensures SpacedNames(a + b) == SpacedNames(a) + SpacedNames(b)
  {
    if a != [] {
      assert (a + b)[0] == a[0] && (a + b)[1..] == a[1..] + b;
      SpacedNamesConcat(a[1..], b);
    } else {
      assert a + b == b;
    }
  }

  /** The "IEDs de terceiros" cell: the spaced names, or "Nenhum" when
      there are none. */
  function ThirdPartyCell(t: seq<IedRef>): (cell: string)
    ensures t != [] ==> cell == SpacedNames(t)
    ensures cell == "Nenhum" <==> t == []
  {
    if |t| > 0 then SpacedNames(t) else "Nenhum"
  }

  /** The cell says "Nenhum" exactly when every input IED is Treetech's. */
  lemma NenhumIffNoThirdParty(entradas: seq<Connection>, le: (string, string) -> bool)
    ensures ThirdPartyCell(ThirdPartyOf(entradas, le)) == "Nenhum" <==>
              forall k :: 0 <= k < |AllIedsOf(entradas)| ==> AllIedsOf(entradas)[k].manufacturer == Treetech
  {
    var ieds := AllIedsOf(entradas);
    var all := Refs(ieds);
    var f := Filter(all, IsThirdParty);
    var t := ThirdPartyOf(entradas, le);
    assert multiset(t) == multiset(f);
    if t == [] {
      forall k | 0 <= k < |ieds| ensures ieds[k].manufacturer == Treetech {
      }
    } else {
      assert t[0] in multiset(f);
      var j :| 0 <= j < |f| && f[j] == t[0];
      var k :| 0 <= k < |all| && all[k] == f[j];
      assert ieds[k].manufacturer != Treetech;
    }
  }

  /** Whether a connection block shows IP and port: both must be filled in. */
  predicate ShowsIpPort(c: Connection) {
    c.ip != "" && c.port != ""
  }

  const IedHeader: seq<string> := ["Nome", "Fabricante", "Endereço", "Módulos", "Opcional"]

  /** Printed in place of an output IED's modules and optional fields. */
  const SameAsInput: string := "Idem à Entrada"

  function AddressText(a: Address): string {
    match a
    case Typed(text) => text
    case Number(n) => NatToString(n)
  }

  /** One row of an IED table. */
  function IedCells(ied: Ied, isOutput: bool): (cells: seq<string>)
    ensures |cells| == |IedHeader|
  {
    [ied.name, ied.manufacturer, AddressText(ied.address)]
    + (if isOutput then [SameAsInput, SameAsInput] else [ied.modules, ied.optional])
  }

  function IedRows(ieds: seq<Ied>, isOutput: bool): (rows: seq<seq<string>>)
    ensures |rows| == |ieds| && forall i :: 0 <= i < |ieds| ==> rows[i] == IedCells(ieds[i], isOutput)
  {
    seq(|ieds|, i requires 0 <= i < |ieds| => IedCells(ieds[i], isOutput))
  }

  /** Input rows show all five fields; output rows show name, manufacturer
      and address and refer to the input for modules and optional. */
  lemma IedRowsRead(ieds: seq<Ied>, isOutput: bool)
    ensures forall i :: 0 <= i < |ieds| ==>
              IedRows(ieds, isOutput)[i][..3] == [ieds[i].name, ieds[i].manufacturer, AddressText(ieds[i].address)]
    ensures !isOutput ==> forall i :: 0 <= i < |ieds| ==>
              IedRows(ieds, isOutput)[i][3..] == [ieds[i].modules, ieds[i].optional]
    ensures isOutput ==> forall i :: 0 <= i < |ieds| ==>
              IedRows(ieds, isOutput)[i][3..] == [SameAsInput, SameAsInput]
  {
    forall i | 0 <= i < |ieds|
      ensures IedRows(ieds, isOutput)[i][..3] == [ieds[i].name, ieds[i].manufacturer, AddressText(ieds[i].address)]
      ensures IedRows(ieds, isOutput)[i][3..] ==
                if isOutput then [SameAsInput, SameAsInput] else [ieds[i].modules, ieds[i].optional]
    {
      var cells := IedCells(ieds[i], isOutput);
      assert cells[..3] == [ieds[i].name, ieds[i].manufacturer, AddressText(ieds[i].address)];
    }
  }

  /** The settings rows: IP and port when both are filled in, whatever the
      connection type, and the four serial settings otherwise. */
  function SettingsRows(c: Connection): (r: seq<Block>)
    ensures ShowsIpPort(c) ==> Captions(r) == ["IP:", "Porta:"] && Values(r) == [c.ip, c.port]
    ensures !ShowsIpPort(c) ==>
              && Captions(r) == ["Baud Rate:", "Data Bits:", "Paridade:", "Stop Bits:"]
              && Values(r) == [c.baudRate, c.dataBits, c.parity, c.stopBits]
    ensures forall i :: 0 <= i < |r| ==> r[i].Row?
  {
    if ShowsIpPort(c) then
      var r := [Row("IP:", c.ip), Row("Porta:", c.port)];
      RowsReadAs(r, ["IP:", "Porta:"], [c.ip, c.port]);
      r
    else
      var r := [Row("Baud Rate:", c.baudRate), Row("Data Bits:", c.dataBits),
                Row("Paridade:", c.parity), Row("Stop Bits:", c.stopBits)];
      RowsReadAs(r, ["Baud Rate:", "Data Bits:", "Paridade:", "Stop Bits:"],
                 [c.baudRate, c.dataBits, c.parity, c.stopBits]);
      r
  }

  /** The IED table, present only when the connection has IEDs. */
  function IedTable(c: Connection, isOutput: bool): (r: seq<Block>)
    ensures |r| <= 1
    ensures r != [] <==> |c.ieds| > 0
  {
    if |c.ieds| > 0 then [Table(IedHeader, IedRows(c.ieds, isOutput))] else []
  }

  /** The rows of one connection's subsection. */
  function ConnectionRows(c: Connection): seq<Block> {
    [Row("Tipo:", c.connType), Row("Protocolo:", c.protocolo)] + SettingsRows(c)
  }

  /** The body of one connection's subsection: the type and protocol rows
      first, and last the IED table exactly when there are IEDs. */
  function ConnectionBlocks(c: Connection, isOutput: bool): (b: seq<Block>)
    ensures |b| >= 4
    ensures b[0] == Row("Tipo:", c.connType) && b[1] == Row("Protocolo:", c.protocolo)
    ensures b[|b| - 1].Table? <==> |c.ieds| > 0
    ensures |c.ieds| > 0 ==> b[|b| - 1] == Table(IedHeader, IedRows(c.ieds, isOutput))
  {
    ConnectionRows(c) + IedTable(c, isOutput)
  }

  /** With IP and port both filled in, the block's rows are type, protocol,
      IP and port. */
  lemma IpPortRowsRead(c: Connection, isOutput: bool)
    requires ShowsIpPort(c)
    ensures Captions(ConnectionBlocks(c, isOutput)) == ["Tipo:", "Protocolo:", "IP:", "Porta:"]
    ensures Values(ConnectionBlocks(c, isOutput)) == [c.connType, c.protocolo, c.ip, c.port]
  {
    var rows := ConnectionRows(c);
    RowsReadAs(rows, ["Tipo:", "Protocolo:", "IP:", "Porta:"], [c.connType, c.protocolo, c.ip, c.port]);
    RowsIgnoreOtherBlocks(rows, IedTable(c, isOutput));
  }

  /** Otherwise its rows are type, protocol and the four serial settings. */
  lemma SerialRowsRead(c: Connection, isOutput: bool)
    requires !ShowsIpPort(c)
    ensures Captions(ConnectionBlocks(c, isOutput)) ==
              ["Tipo:", "Protocolo:", "Baud Rate:", "Data Bits:", "Paridade:", "Stop Bits:"]
    ensures Values(ConnectionBlocks(c, isOutput)) ==
              [c.connType, c.protocolo, c.baudRate, c.dataBits, c.parity, c.stopBits]
  {
    var rows := ConnectionRows(c);
    RowsReadAs(rows, ["Tipo:", "Protocolo:", "Baud Rate:", "Data Bits:", "Paridade:", "Stop Bits:"],
               [c.connType, c.protocolo, c.baudRate, c.dataBits, c.parity, c.stopBits]);
    RowsIgnoreOtherBlocks(rows, IedTable(c, isOutput));
  }

  /** `conns.map((c, index) => subsection)`: "Entrada 1", "Entrada 2", ...
      each after the first starting on a new page. */
  function ConnectionSubsections(conns: seq<Connection>, prefix: string, isOutput: bool): (r: seq<Block>)
    ensures |r| == |conns|
    ensures forall i :: 0 <= i < |conns| ==>
              && r[i].Subsection?
              && r[i].title == prefix + NatToString(i + 1)
              && (r[i].pageBreak <==> i > 0)
              && r[i].body == ConnectionBlocks(conns[i], isOutput)
  {
    seq(|conns|, i requires 0 <= i < |conns| =>
      Subsection(prefix + NatToString(i + 1), i > 0, ConnectionBlocks(conns[i], isOutput)))
  }

  /** Distinct connections get distinct subsection titles. */
  lemma SubsectionTitlesDistinct(conns: seq<Connection>, prefix: string, isOutput: bool, i: nat, j: nat)
    requires i < j < |conns|
    ensures ConnectionSubsections(conns, prefix, isOutput)[i].title != ConnectionSubsections(conns, prefix, isOutput)[j].title
  {
    NumberedTitlesDiffer(prefix, i + 1, j + 1);
  }

  lemma NumberedTitlesDiffer(prefix: string, a: nat, b: nat)
    requires a != b
    ensures prefix + NatToString(a) != prefix + NatToString(b)
  {
    if prefix + NatToString(a) == prefix + NatToString(b) {
      assert NatToString(a) == (prefix + NatToString(a))[|prefix|..];
      assert NatToString(b) == (prefix + NatToString(b))[|prefix|..];
      NatToStringRoundTrip(a);
      NatToStringRoundTrip(b);
    }
  }

  const SummaryTitle: string := "Requisição de Aplicação"
  const InputsTitle: string := "Detalhes das Entradas"
  const OutputsTitle: string := "Detalhes das Saídas"

  function GatewayPicture(gateway: Option<string>): (p: Picture)
    ensures p == SDgPicture <==> gateway == Some("SDG")
  {
    if gateway == Some("SDG") then SDgPicture else SDpPicture
  }

  const GeneralCaptions: seq<string> :=
    ["Requerente:", "Email:", "Departamento:", "Cliente:", "Projeto:",
     "Número do Pedido:", "Número do Cliente:", "Gateway:", "Conexão Sigma:"]

  /** The "Informações Gerais" section, with the gateway's picture: one row
      per general field in the form's order, an unset field reading empty. */
  function GeneralSection(data: RequestForm): (b: Block)
    ensures b.Section? && b.title == "Informações Gerais" && b.picture == Some(GatewayPicture(data.gateway))
    ensures Captions(b.body) == GeneralCaptions
    ensures Values(b.body) == [data.requester.GetOr(""), data.email.GetOr(""), data.departament.GetOr(""),
                               data.client.GetOr(""), data.project.GetOr(""), data.invoiceNumber.GetOr(""),
                               data.clientNumber.GetOr(""), data.gateway.GetOr(""), data.sigmaConnection.GetOr("")]
  {
    var rows := [
      Row("Requerente:", data.requester.GetOr("")),
      Row("Email:", data.email.GetOr("")),
      Row("Departamento:", data.departament.GetOr("")),
      Row("Cliente:", data.client.GetOr("")),
      Row("Projeto:", data.project.GetOr("")),
      Row("Número do Pedido:", data.invoiceNumber.GetOr("")),
      Row("Número do Cliente:", data.clientNumber.GetOr("")),
      Row("Gateway:", data.gateway.GetOr("")),
      Row("Conexão Sigma:", data.sigmaConnection.GetOr(""))];
    RowsReadAs(rows, GeneralCaptions,
               [data.requester.GetOr(""), data.email.GetOr(""), data.departament.GetOr(""),
                data.client.GetOr(""), data.project.GetOr(""), data.invoiceNumber.GetOr(""),
                data.clientNumber.GetOr(""), data.gateway.GetOr(""), data.sigmaConnection.GetOr("")]);
    Section("Informações Gerais", Some(GatewayPicture(data.gateway)), rows)
  }

  const DetailsHeader: seq<string> := ["Entradas", "Saídas", "IEDs de terceiros"]

  /** The one data row of the "Detalhes da Aplicação" table: the protocols
      of the inputs, of the outputs, and the third-party IEDs. Connections
      never stored give an empty cell; a single protocol reads as itself. */
  function DetailsCells(data: RequestForm, thirdParty: seq<IedRef>): (r: seq<string>)
    ensures |r| == |DetailsHeader|
    ensures data.entradas.None? ==> r[0] == ""
    ensures data.saidas.None? ==> r[1] == ""
    ensures |ProtocolList(data.entradas)| == 1 ==> r[0] == ProtocolList(data.entradas)[0]
    ensures |ProtocolList(data.saidas)| == 1 ==> r[1] == ProtocolList(data.saidas)[0]
    ensures r[2] == "Nenhum" <==> thirdParty == []
    ensures thirdParty != [] ==> r[2] == SpacedNames(thirdParty)
  {
    [Join(ProtocolList(data.entradas), ", "), Join(ProtocolList(data.saidas), ", "), ThirdPartyCell(thirdParty)]
  }

  /** `comment && ...`. */
  function CommentBlocks(comment: string): (r: seq<Block>)
    ensures HasSection(r, "Comentários") <==> comment != ""
  {
    if comment != "" then
      var r := [Section("Comentários", None, [Paragraph(comment)])];
      assert r[0].Section? && r[0].title == "Comentários";
      r
    else []
  }

  function SummaryPage(data: RequestForm, comment: string, thirdParty: seq<IedRef>): (p: Page)
    ensures p.title == SummaryTitle
  {
    Page(SummaryTitle,
         [GeneralSection(data),
          Section("Detalhes da Aplicação", None, [Table(DetailsHeader, [DetailsCells(data, thirdParty)])])]
         + CommentBlocks(comment),
         PageNumbers)
  }

  /** A page of connections: one group holding a numbered subsection per
      connection, in order. */
  function ConnectionsPage(title: string, conns: seq<Connection>, prefix: string, isOutput: bool): (p: Page)
    ensures p.title == title && p.footer == PageNumbers
    ensures p.body == [Group(ConnectionSubsections(conns, prefix, isOutput))]
  {
    Page(title, [Group(ConnectionSubsections(conns, prefix, isOutput))], PageNumbers)
  }

  /** The three page titles differ. */
  lemma PageTitlesDistinct()
    ensures SummaryTitle != InputsTitle && SummaryTitle != OutputsTitle && InputsTitle != OutputsTitle
  {
    assert SummaryTitle[0] != InputsTitle[0] && SummaryTitle[0] != OutputsTitle[0];
    assert InputsTitle[13] != OutputsTitle[13];
  }

  /** The inputs page, when there are inputs. */
  function InputsPages(es: seq<Connection>): (r: seq<Page>)
    ensures |r| <= 1 && (r != [] <==> |es| > 0)
    ensures forall i :: 0 <= i < |r| ==> r[i].title == InputsTitle
    ensures r != [] ==> r[0] == ConnectionsPage(InputsTitle, es, "Entrada ", false)
  {
    if |es| > 0 then [ConnectionsPage(InputsTitle, es, "Entrada ", false)] else []
  }

  /** The outputs page, when there are outputs. */
  function OutputsPages(saidas: Option<seq<Connection>>): (r: seq<Page>)
    ensures |r| <= 1 && (r != [] <==> saidas.Some? && |saidas.value| > 0)
    ensures forall i :: 0 <= i < |r| ==> r[i].title == OutputsTitle
    ensures r != [] ==> r[0] == ConnectionsPage(OutputsTitle, saidas.value, "Saída ", true)
  {
    if saidas.Some? && |saidas.value| > 0 then [ConnectionsPage(OutputsTitle, saidas.value, "Saída ", true)] else []
  }

  /** A summary page followed by at most one inputs page and one outputs
      page has each optional page exactly when that page is given. */
  lemma AssembledPages(summary: Page, inputs: seq<Page>, outputs: seq<Page>)
    requires summary.title == SummaryTitle
    requires |inputs| <= 1 && forall i :: 0 <= i < |inputs| ==> inputs[i].title == InputsTitle
    requires |outputs| <= 1 && forall i :: 0 <= i < |outputs| ==> outputs[i].title == OutputsTitle
    ensures var d := Document([summary] + inputs + outputs);
            && 1 <= |d.pages| <= 3 && d.pages[0] == summary
            && (HasPage(d, InputsTitle) <==> inputs != [])
            && (HasPage(d, OutputsTitle) <==> outputs != [])
  {
    var pages := [summary] + inputs + outputs;
    PageTitlesDistinct();
    forall i | 0 <= i < |pages|
      ensures pages[i].title == if i == 0 then SummaryTitle else if i <= |inputs| then InputsTitle else OutputsTitle
    {
      if i == 0 {
      } else if i <= |inputs| {
        assert pages[i] == inputs[i - 1];
      } else {
        assert pages[i] == outputs[i - 1 - |inputs|];
      }
    }
    if inputs != [] {
      assert pages[1].title == InputsTitle;
    }
    if outputs != [] {
      assert pages[|pages| - 1].title == OutputsTitle;
    }
  }

  /** `MyDocument({data, comment})`: the summary page, then the inputs page
      and the outputs page; undefined inputs make rendering fail. */
  function MyDocument(data: RequestForm, comment: string, le: (string, string) -> bool): (r: Result<Document, string>)
    ensures r.Failure? <==> data.entradas.None?
    ensures r.Success? ==> |r.value.pages| >= 1 && r.value.pages[0] == SummaryPage(data, comment, ThirdPartyOf(data.entradas.value, le))
  {
    match data.entradas
    case None => Failure("allIeds is undefined")
    case Some(es) =>
      Success(Document([SummaryPage(data, comment, ThirdPartyOf(es, le))] + InputsPages(es) + OutputsPages(data.saidas)))
  }

  /** The document has one to three pages, the summary first, an inputs page
      exactly when there are inputs and an outputs page exactly when there
      are outputs. */
  lemma MyDocumentPages(data: RequestForm, comment: string, le: (string, string) -> bool)
    requires data.entradas.Some?
    ensures var d := MyDocument(data, comment, le).value;
            && 1 <= |d.pages| <= 3 && d.pages[0].title == SummaryTitle
            && (HasPage(d, InputsTitle) <==> |data.entradas.value| > 0)
            && (HasPage(d, OutputsTitle) <==> data.saidas.Some? && |data.saidas.value| > 0)
  {
    var es := data.entradas.value;
    AssembledPages(SummaryPage(data, comment, ThirdPartyOf(es, le)), InputsPages(es), OutputsPages(data.saidas));
  }

  /** Subsection i of a connections page: titled with its number, on a
      new page after the first, holding the connection's rows and, when it
      has IEDs, a table whose rows show each IED's modules and optional
      fields for an input and refer to the input for an output. */
  lemma ConnectionsPageSubsection(title: string, conns: seq<Connection>, prefix: string, isOutput: bool, i: nat)
    requires i < |conns|
    ensures var sub := ConnectionsPage(title, conns, prefix, isOutput).body[0].body[i];
            var ieds := conns[i].ieds;
            && sub == Subsection(prefix + NatToString(i + 1), i > 0, ConnectionBlocks(conns[i], isOutput))
            && (|ieds| > 0 ==> sub.body[|sub.body| - 1] == Table(IedHeader, IedRows(ieds, isOutput)))
            && (forall j :: 0 <= j < |ieds| ==>
                  (IedRows(ieds, isOutput)[j][3..] ==
                   if isOutput then [SameAsInput, SameAsInput] else [ieds[j].modules, ieds[j].optional]))
  {
    IedRowsRead(conns[i].ieds, isOutput);
  }

  /** The document's second page is the connections page of the inputs,
      numbered "Entrada 1", "Entrada 2", ... with full IED rows; its last
      page is that of the outputs, numbered "Saída 1", ... with IED rows
      referring to the input (see `ConnectionsPageSubsection`). */
  lemma MyDocumentConnectionPages(data: RequestForm, comment: string, le: (string, string) -> bool)
    requires data.entradas.Some?
    ensures var d := MyDocument(data, comment, le).value;
            && (|data.entradas.value| > 0 ==>
                  |d.pages| >= 2 && d.pages[1] == ConnectionsPage(InputsTitle, data.entradas.value, "Entrada ", false))
            && (data.saidas.Some? && |data.saidas.value| > 0 ==>
                  |d.pages| >= 2 && d.pages[|d.pages| - 1] == ConnectionsPage(OutputsTitle, data.saidas.value, "Saída ", true))
  {
    var es := data.entradas.value;
    OptionalPagesAt(SummaryPage(data, comment, ThirdPartyOf(es, le)), InputsPages(es), OutputsPages(data.saidas));
  }

  /** Where the optional pages sit after the summary. */
  lemma OptionalPagesAt(summary: Page, inputs: seq<Page>, outputs: seq<Page>)
    requires |inputs| <= 1 && |outputs| <= 1
    ensures var pages := [summary] + inputs + outputs;
            && (inputs != [] ==> |pages| >= 2 && pages[1] == inputs[0])
            && (outputs != [] ==> |pages| >= 2 && pages[|pages| - 1] == outputs[0])
  {
  }

  /** The summary page's application table lists the input and output
      protocols, joined with ", ", and the third-party IEDs or "Nenhum"; the
      comments section is there exactly when the comment is not empty. */
  lemma SummaryPageRead(data: RequestForm, comment: string, thirdParty: seq<IedRef>)
    ensures var body := SummaryPage(data, comment, thirdParty).body;
            && body[0] == GeneralSection(data)
            && body[1] == Section("Detalhes da Aplicação", None, [Table(DetailsHeader, [[
                 Join(ProtocolList(data.entradas), ", "),
                 Join(ProtocolList(data.saidas), ", "),
                 ThirdPartyCell(thirdParty)]])])
            && (HasSection(body, "Comentários") <==> comment != "")
  {
    var body := SummaryPage(data, comment, thirdParty).body;
    var extra := CommentBlocks(comment);
    assert body == [body[0], body[1]] + extra;
    if HasSection(body, "Comentários") {
      var i :| 0 <= i < |body| && body[i].Section? && body[i].title == "Comentários";
      assert body[i] == extra[i - 2];
    }
    if comment != "" {
      assert body[2] == extra[0];
    }
  }
}
