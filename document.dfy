/**
 * An abstract form of the react-pdf documents the forms produce: pages
 * with a title under the logo, blocks of labelled rows, tables, sections
 * and numbered subsections, and a footer. Styling and page layout are not
 * represented.
 */
module Doc {
  import opened Seqs

  datatype Picture = SDgPicture | SDpPicture

  datatype Block =
    | Row(caption: string, value: string)
    | Table(header: seq<string>, rows: seq<seq<string>>)
    | Paragraph(text: string)
    /** A titled `section` view; `picture` sits next to the title. */
    | Section(title: string, picture: Option<Picture>, body: seq<Block>)
    /** An untitled group of blocks. */
    | Group(body: seq<Block>)
    /** A numbered `subsection`; `pageBreak` is react-pdf's `break`. */
    | Subsection(title: string, pageBreak: bool, body: seq<Block>)

  datatype Footer = PageNumbers | Note(text: string)

  /** A page: the logo and `title` in its header, then `body`, then the footer. */
  datatype Page = Page(title: string, body: seq<Block>, footer: Footer)

  datatype Document = Document(pages: seq<Page>)

  /** The captions of the rows directly in `blocks`, in order. */
  function Captions(blocks: seq<Block>): (r: seq<string>)
    ensures |r| <= |blocks|
  {
    if blocks == [] then []
    else (if blocks[0].Row? then [blocks[0].caption] else []) + Captions(blocks[1..])
  }

  /** The values of the rows directly in `blocks`, in the same order. */
  function Values(blocks: seq<Block>): (r: seq<string>)
    ensures |r| == |Captions(blocks)|
  {
    if blocks == [] then []
    else (if blocks[0].Row? then [blocks[0].value] else []) + Values(blocks[1..])
  }

  /** Rows built from matching lists of captions and values read back as
      those lists. */
  lemma {:induction false} RowsReadAs(blocks: seq<Block>, captions: seq<string>, values: seq<string>)
    requires |blocks| == |captions| == |values|
    requires forall j :: 0 <= j < |blocks| ==> blocks[j] == Row(captions[j], values[j])
    ensures Captions(blocks) == captions && Values(blocks) == values
  {
    if blocks != [] {
      RowsReadAs(blocks[1..], captions[1..], values[1..]);
    }
  }

  /** Blocks that are not rows add no captions or values. */
  lemma {:induction false} RowsIgnoreOtherBlocks(rows: seq<Block>, tail: seq<Block>)
    requires forall i :: 0 <= i < |tail| ==> !tail[i].Row?
    ensures Captions(rows + tail) == Captions(rows) && Values(rows + tail) == Values(rows)
  {
    if rows == [] {
      assert rows + tail == tail;
      NoRows(tail);
    } else {
      assert (rows + tail)[1..] == rows[1..] + tail;
      RowsIgnoreOtherBlocks(rows[1..], tail);
    }
  }

  lemma {:induction false} NoRows(tail: seq<Block>)
    requires forall i :: 0 <= i < |tail| ==> !tail[i].Row?
    ensures Captions(tail) == [] && Values(tail) == []
  {
    if tail != [] {
      NoRows(tail[1..]);
    }
  }

  /** Some block directly in `blocks` is a section titled `title`. */
  predicate HasSection(blocks: seq<Block>, title: string) {
    exists i :: 0 <= i < |blocks| && blocks[i].Section? && blocks[i].title == title
  }

  /** Some page of `d` has the title `title`. */
  predicate HasPage(d: Document, title: string) {
    exists i :: 0 <= i < |d.pages| && d.pages[i].title == title
  }

  function DigitChar(d: nat): (c: char)
    requires d < 10
    ensures '0' <= c <= '9'
  {
    ('0' as int + d) as char
  }

  function DigitValue(c: char): nat {
    if '0' <= c <= '9' then (c as int - '0' as int) as nat else 0
  }

  /** How a number is rendered in a text node: its decimal digits. */
  function NatToString(n: nat): (s: string)
    ensures |s| >= 1 && forall i :: 0 <= i < |s| ==> '0' <= s[i] <= '9'
  {
    if n < 10 then [DigitChar(n)] else NatToString(n / 10) + [DigitChar(n % 10)]
  }

  /** Reads a decimal string back. */
  function ParseNat(s: string): nat {
    if s == [] then 0 else ParseNat(s[..|s| - 1]) * 10 + DigitValue(s[|s| - 1])
  }

  /** A rendered number reads back as itself, so distinct numbers render
      differently. */
  lemma {:induction false} NatToStringRoundTrip(n: nat)
    ensures ParseNat(NatToString(n)) == n
  {
    if n >= 10 {
      NatToStringRoundTrip(n / 10);
      var s := NatToString(n);
      assert s[..|s| - 1] == NatToString(n / 10);
    }
  }
}
