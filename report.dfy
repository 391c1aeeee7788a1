/**
 * The downloadable diagnosis report, as the ordered list of logical items the
 * document receives: single-line cells, multi-line blocks and vertical gaps.
 * Fonts, cell widths, page layout and the written file are not modelled.
 */
module Report {
  import Decimal

  /** One call on the document: `cell` (a line), `multi_cell` (a block) or `ln` (a gap). */
  datatype Item = Line(text: string, centered: bool) | Block(text: string) | Gap(height: nat)

  const Title: string := "足型AI診断結果"
  const DatePrefix: string := "診断日: "
  const ArchPrefix: string := "AI診断アーチ分類："
  const LegPrefix: string := "脚の形状："
  const BunionPrefix: string := "外反母趾："
  const PatternPrefix: string := "分類パターンID："
  const PatternSuffix: string := " / 12"
  const ArchHeading: string := "[アーチ説明]\n"
  const LegHeading: string := "[脚型説明]\n"
  const BunionHeading: string := "[外反母趾説明]\n"

  /** The line `"分類パターンID：{id} / 12"`. */
  function PatternLine(patternId: nat): string
  {
    PatternPrefix + Decimal.Format(patternId) + PatternSuffix
  }

  /** Title and date (the first two cells). */
  function Header(date: string): seq<Item>
  {
    [Line(Title, true), Line(DatePrefix + date, false)]
  }

  /** The four answer lines after a gap of 5. */
  function Summary(archLabel: string, legShape: string, hasBunion: string, patternId: nat): seq<Item>
  {
    [ Gap(5),
      Line(ArchPrefix + archLabel, false),
      Line(LegPrefix + legShape, false),
      Line(BunionPrefix + hasBunion, false),
      Line(PatternLine(patternId), false) ]
  }

  /** The arch and leg description blocks, each after a gap. */
  function Explanations(archText: string, legText: string): seq<Item>
  {
    [Gap(8), Block(ArchHeading + archText), Gap(4), Block(LegHeading + legText)]
  }

  /** The items of the bunion section: present only when there is bunion text. */
  function BunionSection(bunionText: string): seq<Item>
  {
    if bunionText != "" then [Gap(4), Block(BunionHeading + bunionText)] else []
  }

  /** Everything the report writes, in the order it writes it. */
  function ReportItems(date: string, archLabel: string, legShape: string, hasBunion: string,
                       patternId: nat, archText: string, legText: string, bunionText: string): seq<Item>
  {
    Header(date) + Summary(archLabel, legShape, hasBunion, patternId)
    + Explanations(archText, legText) + BunionSection(bunionText)
  }

  /** The texts of the single-line cells, in order. */
  function Lines(items: seq<Item>): seq<string>
  {
    if items == [] then []
    else (if items[0].Line? then [items[0].text] else []) + Lines(items[1..])
  }

  /** The texts of the multi-line blocks, in order. */
  function Blocks(items: seq<Item>): seq<string>
  {
    if items == [] then []
    else (if items[0].Block? then [items[0].text] else []) + Blocks(items[1..])
  }

  /** No line among `items` is centered. */
  predicate Uncentered(items: seq<Item>)
  {
    forall i :: 0 <= i < |items| && items[i].Line? ==> !items[i].centered
  }

  lemma {:induction false} LinesAppend(a: seq<Item>, b: seq<Item>)
    ensures Lines(a + b) == Lines(a) + Lines(b)
    decreases |a|
  {
    if a == [] {
      assert a + b == b;
    } else {
      assert (a + b)[0] == a[0];
      assert (a + b)[1..] == a[1..] + b;
      LinesAppend(a[1..], b);
    }
  }

  lemma {:induction false} BlocksAppend(a: seq<Item>, b: seq<Item>)
    ensures Blocks(a + b) == Blocks(a) + Blocks(b)
    decreases |a|
  {
    if a == [] {
      assert a + b == b;
    } else {
      assert (a + b)[0] == a[0];
      assert (a + b)[1..] == a[1..] + b;
      BlocksAppend(a[1..], b);
    }
  }

  /** One step of `Lines` at position `k`. */
  lemma LinesStep(s: seq<Item>, k: nat)
    requires k < |s|
    ensures Lines(s[k..]) == (if s[k].Line? then [s[k].text] else []) + Lines(s[k + 1..])
  {
    assert s[k..][0] == s[k];
    assert s[k..][1..] == s[k + 1..];
  }

  /** One step of `Blocks` at position `k`. */
  lemma BlocksStep(s: seq<Item>, k: nat)
    requires k < |s|
    ensures Blocks(s[k..]) == (if s[k].Block? then [s[k].text] else []) + Blocks(s[k + 1..])
  {
    assert s[k..][0] == s[k];
    assert s[k..][1..] == s[k + 1..];
  }

  /** Lines and blocks of the title and date; the title alone is centered. */
  lemma HeaderParts(date: string)
    ensures Lines(Header(date)) == [Title, DatePrefix + date]
    ensures Blocks(Header(date)) == []
    ensures Header(date)[0] == Line(Title, true)
    ensures Uncentered(Header(date)[1..])
  {
    var h := Header(date);
    assert h[0..] == h && h[2..] == [];
    LinesStep(h, 0); LinesStep(h, 1);
    BlocksStep(h, 0); BlocksStep(h, 1);
  }

  /**
   * The answer summary opens with a gap of 5 and then writes the arch, leg,
   * bunion and identifier lines in order, none of them centered.
   */
  lemma SummaryLines(archLabel: string, legShape: string, hasBunion: string, patternId: nat)
    ensures Summary(archLabel, legShape, hasBunion, patternId)[0] == Gap(5)
    ensures Lines(Summary(archLabel, legShape, hasBunion, patternId))
         == [ArchPrefix + archLabel, LegPrefix + legShape, BunionPrefix + hasBunion, PatternLine(patternId)]
    ensures Uncentered(Summary(archLabel, legShape, hasBunion, patternId))
  {
    var s := Summary(archLabel, legShape, hasBunion, patternId);
    assert s[0..] == s && s[5..] == [];
    LinesStep(s, 0); LinesStep(s, 1); LinesStep(s, 2); LinesStep(s, 3); LinesStep(s, 4);
  }

  /** The answer summary writes no block. */
  lemma SummaryBlocks(archLabel: string, legShape: string, hasBunion: string, patternId: nat)
    ensures Blocks(Summary(archLabel, legShape, hasBunion, patternId)) == []
  {
    var s := Summary(archLabel, legShape, hasBunion, patternId);
    assert s[0..] == s && s[5..] == [];
    BlocksStep(s, 0); BlocksStep(s, 1); BlocksStep(s, 2); BlocksStep(s, 3); BlocksStep(s, 4);
  }

  /** Lines and blocks of the arch and leg descriptions. */
  lemma ExplanationsParts(archText: string, legText: string)
    ensures Lines(Explanations(archText, legText)) == []
    ensures Blocks(Explanations(archText, legText)) == [ArchHeading + archText, LegHeading + legText]
  {
    var e := Explanations(archText, legText);
    assert e[0..] == e && e[4..] == [];
    LinesStep(e, 0); LinesStep(e, 1); LinesStep(e, 2); LinesStep(e, 3);
    BlocksStep(e, 0); BlocksStep(e, 1); BlocksStep(e, 2); BlocksStep(e, 3);
  }

  /**
   * The bunion section: for non-empty text a gap of 4 and then one block and
   * no line; for empty text nothing at all.
   */
  lemma BunionSectionParts(bunionText: string)
    ensures bunionText == "" ==> BunionSection(bunionText) == []
    ensures bunionText != "" ==> |BunionSection(bunionText)| == 2 && BunionSection(bunionText)[0] == Gap(4)
    ensures Lines(BunionSection(bunionText)) == []
    ensures Blocks(BunionSection(bunionText)) == if bunionText != "" then [BunionHeading + bunionText] else []
  {
    var u := BunionSection(bunionText);
    if bunionText != "" {
      assert u[0..] == u && u[2..] == [];
      LinesStep(u, 0); LinesStep(u, 1);
      BlocksStep(u, 0); BlocksStep(u, 1);
    }
  }

  /** The report's single-line cells, in their fixed order. */
  lemma ReportLines(date: string, archLabel: string, legShape: string, hasBunion: string,
                    patternId: nat, archText: string, legText: string, bunionText: string)
    ensures Lines(ReportItems(date, archLabel, legShape, hasBunion, patternId, archText, legText, bunionText))
         == [ Title, DatePrefix + date, ArchPrefix + archLabel, LegPrefix + legShape,
              BunionPrefix + hasBunion, PatternLine(patternId) ]
  {
    var h, s := Header(date), Summary(archLabel, legShape, hasBunion, patternId);
    var e, u := Explanations(archText, legText), BunionSection(bunionText);
    calc {
      Lines(ReportItems(date, archLabel, legShape, hasBunion, patternId, archText, legText, bunionText));
      Lines(h + s + e + u);
      { LinesAppend(h + s + e, u); LinesAppend(h + s, e); LinesAppend(h, s); }
      Lines(h) + Lines(s) + Lines(e) + Lines(u);
      { HeaderParts(date); SummaryLines(archLabel, legShape, hasBunion, patternId);
        ExplanationsParts(archText, legText); BunionSectionParts(bunionText); }
      [Title, DatePrefix + date]
      + [ArchPrefix + archLabel, LegPrefix + legShape, BunionPrefix + hasBunion, PatternLine(patternId)];
    }
  }

  /**
   * The report's description blocks: the arch block, then the leg block, then
   * the bunion block only when there is bunion text; nothing empty is headed.
   */
  lemma ReportBlocks(date: string, archLabel: string, legShape: string, hasBunion: string,
                     patternId: nat, archText: string, legText: string, bunionText: string)
    ensures Blocks(ReportItems(date, archLabel, legShape, hasBunion, patternId, archText, legText, bunionText))
         == [ArchHeading + archText, LegHeading + legText]
            + (if bunionText != "" then [BunionHeading + bunionText] else [])
    ensures |Blocks(ReportItems(date, archLabel, legShape, hasBunion, patternId, archText, legText, bunionText))|
         == if bunionText != "" then 3 else 2
  {
    var h, s := Header(date), Summary(archLabel, legShape, hasBunion, patternId);
    var e, u := Explanations(archText, legText), BunionSection(bunionText);
    BlocksAppend(h + s + e, u);
    BlocksAppend(h + s, e);
    BlocksAppend(h, s);
    HeaderParts(date);
    SummaryBlocks(archLabel, legShape, hasBunion, patternId);
    ExplanationsParts(archText, legText);
    BunionSectionParts(bunionText);
  }

  /** The report opens with the centered title, and no other line of it is centered. */
  lemma ReportTitleCentered(date: string, archLabel: string, legShape: string, hasBunion: string,
                           patternId: nat, archText: string, legText: string, bunionText: string)
    ensures var items := ReportItems(date, archLabel, legShape, hasBunion, patternId, archText, legText, bunionText);
            |items| > 0 && items[0] == Line(Title, true) && Uncentered(items[1..])
  {
    var h, s := Header(date), Summary(archLabel, legShape, hasBunion, patternId);
    var e, u := Explanations(archText, legText), BunionSection(bunionText);
    var items := h + s + e + u;
    HeaderParts(date);
    SummaryLines(archLabel, legShape, hasBunion, patternId);
    assert Uncentered(e);
    assert Uncentered(u);
    assert items[1..] == h[1..] + s + e + u;
    forall i | 0 <= i < |items[1..]| && items[1..][i].Line?
      ensures !items[1..][i].centered
    {
      var rest := h[1..] + s + e + u;
      if i < 1 {
        assert rest[i] == h[1..][i];
      } else if i < 6 {
        assert rest[i] == s[i - 1];
      } else if i < 10 {
        assert rest[i] == e[i - 6];
      } else {
        assert rest[i] == u[i - 10];
      }
    }
  }

  /** The identifier can be read back off its report line. */
  lemma PatternLineReadable(patternId: nat)
    ensures exists digits: string ::
              Decimal.IsDigits(digits) && PatternLine(patternId) == PatternPrefix + digits + PatternSuffix
              && Decimal.Parse(digits) == patternId
  {
    Decimal.ParseFormat(patternId);
    assert Decimal.IsDigits(Decimal.Format(patternId));
  }

  /** The document being written: the items appended so far. */
  class Document {
    var items: seq<Item>

    /** `FPDF()`: a new document holds nothing. */
    constructor ()
      ensures items == []
    {
      items := [];
    }

    /** `pdf.cell(..., txt=text, ln=True, align=...)`: appends one line. */
    method Cell(text: string, centered: bool)
      modifies this
      ensures items == old(items) + [Line(text, centered)]
    {
      items := items + [Line(text, centered)];
    }

    /** `pdf.multi_cell(..., text)`: appends one block. */
    method MultiCell(text: string)
      modifies this
      ensures items == old(items) + [Block(text)]
    {
      items := items + [Block(text)];
    }

    /** `pdf.ln(height)`: appends a gap. */
    method Ln(height: nat)
      modifies this
      ensures items == old(items) + [Gap(height)]
    {
      items := items + [Gap(height)];
    }
  }

  /**
   * Writes the report into a fresh document, one call after another; the
   * bunion block and the gap before it are written only for non-empty text.
   */
  method ExportReport(date: string, archLabel: string, legShape: string, hasBunion: string,
                      patternId: nat, archText: string, legText: string, bunionText: string)
    returns (doc: Document)
    ensures fresh(doc)
    ensures doc.items == ReportItems(date, archLabel, legShape, hasBunion, patternId, archText, legText, bunionText)
  {
    doc := new Document();
    doc.Cell(Title, true);
    doc.Cell(DatePrefix + date, false);
    assert doc.items == Header(date);
    doc.Ln(5);
    doc.Cell(ArchPrefix + archLabel, false);
    doc.Cell(LegPrefix + legShape, false);
    doc.Cell(BunionPrefix + hasBunion, false);
    doc.Cell(PatternLine(patternId), false);
    assert doc.items == Header(date) + Summary(archLabel, legShape, hasBunion, patternId);
    doc.Ln(8);
    doc.MultiCell(ArchHeading + archText);
    doc.Ln(4);
    doc.MultiCell(LegHeading + legText);
    assert doc.items == Header(date) + Summary(archLabel, legShape, hasBunion, patternId)
                        + Explanations(archText, legText);
    if bunionText != "" {
      doc.Ln(4);
      doc.MultiCell(BunionHeading + bunionText);
    }
  }
}
