/**
 * The one-page cover generated for an approval request
 * (`approval-form/pdf-cover.tsx`): the request kind in the title and in
 * the footer note, the requester's identification rows, a one-row device
 * table and, when there are any, the comments.
 */
module ApprovalCover {
  import opened Seqs
  import opened Doc
  import opened ApprovalSchema

  const IdentificationCaptions: seq<string> :=
    ["Requerente:", "Email:", "Departamento:", "Cliente:", "Protocolos:", "Site de acesso:"]

  const DeviceHeader: seq<string> :=
    ["Fabricante", "Nome do equipamento", "Tipo do equipamento", "Documento anexado"]

  /** The identification rows, in order, each with the record's value; an
      unset email or department reads as empty. */
  function IdentificationRows(d: ApprovalForm): (rows: seq<Block>)
    ensures Captions(rows) == IdentificationCaptions
    ensures Values(rows) == [d.requester, d.email.GetOr(""), d.departament.GetOr(""), d.client, d.protocols, d.url]
  {
    var rows := [
      Row("Requerente:", d.requester),
      Row("Email:", d.email.GetOr("")),
      Row("Departamento:", d.departament.GetOr("")),
      Row("Cliente:", d.client),
      Row("Protocolos:", d.protocols),
      Row("Site de acesso:", d.url) ];
    RowsReadAs(rows, IdentificationCaptions,
               [d.requester, d.email.GetOr(""), d.departament.GetOr(""), d.client, d.protocols, d.url]);
    rows
  }

  /** `data.comments && ...`: an unset or empty comment renders nothing. */
  function CommentsBlocks(comments: Option<string>): (r: seq<Block>)
    ensures HasSection(r, "Comentários") <==> comments.Some? && comments.value != ""
  {
    if comments.Some? && comments.value != "" then
      var r := [Section("Comentários", None, [Paragraph(comments.value)])];
      assert r[0].Section? && r[0].title == "Comentários";
      r
    else []
  }

  /** The cover document. */
  function Cover(d: ApprovalForm): (doc: Document)
    ensures |doc.pages| == 1
  {
    Document([Page(
      "Requisição de " + d.approval,
      [ Group(IdentificationRows(d)),
        Table(DeviceHeader, [[d.manufacturer, d.name, d.deviceType, d.documentType]]) ]
      + CommentsBlocks(d.comments),
      Note("Essa folha apresenta informações relativas ao pedido de " + d.approval))])
  }

  /** The cover names the request kind in its title and footer, holds the
      identification rows and then one device row in the header's column
      order, and has a comments section exactly when there are comments. */
  lemma CoverLayout(d: ApprovalForm)
    ensures var page := Cover(d).pages[0];
            && page.title == "Requisição de " + d.approval
            && page.footer == Note("Essa folha apresenta informações relativas ao pedido de " + d.approval)
            && page.body[0] == Group(IdentificationRows(d))
            && page.body[1] == Table(DeviceHeader, [[d.manufacturer, d.name, d.deviceType, d.documentType]])
            && (HasSection(page.body, "Comentários") <==> d.comments.Some? && d.comments.value != "")
  {
    var page := Cover(d).pages[0];
    var extra := CommentsBlocks(d.comments);
    assert page.body == [page.body[0], page.body[1]] + extra;
    if HasSection(page.body, "Comentários") {
      var i :| 0 <= i < |page.body| && page.body[i].Section? && page.body[i].title == "Comentários";
      assert page.body[i] == extra[i - 2];
    }
    if d.comments.Some? && d.comments.value != "" {
      assert page.body[2] == extra[0];
    }
  }
}
