/**
 * One diagnosis from end to end: the classifier's argmax index and the two
 * answers give the arch label, the pattern identifier and the three texts,
 * and from those the report. The inputs are explicit parameters rather than
 * names left over from an earlier interaction.
 */
module Diagnosis {
  import Pattern
  import Descriptions
  import Report

  /** The values one upload computes before anything is shown or written. */
  datatype Outcome = Outcome(archLabel: string, patternId: nat, archText: string, legText: string, bunionText: string)

  /** Label decoding, pattern resolution and description lookup for one upload. */
  function Diagnose(index: int, legShape: string, hasBunion: string): (d: Outcome)
    requires 0 <= index < 3
    ensures d.archLabel in Pattern.ClassifierLabels
    ensures 1 <= d.patternId <= Pattern.PatternCount
    ensures d.archText != ""
    ensures d.legText != "" <==> legShape in Pattern.LegShapes
    ensures d.bunionText != "" <==> hasBunion == Pattern.BunionPresent
  {
    var archLabel := Pattern.ArchLabel(index);
    Outcome(archLabel,
            Pattern.PatternId(archLabel, legShape, hasBunion),
            Descriptions.ArchText(archLabel),
            Descriptions.LegText(legShape),
            Descriptions.BunionText(hasBunion))
  }

  /** The report written for one upload on the given date. */
  function ReportOf(date: string, index: int, legShape: string, hasBunion: string): seq<Report.Item>
    requires 0 <= index < 3
  {
    var d := Diagnose(index, legShape, hasBunion);
    Report.ReportItems(date, d.archLabel, legShape, hasBunion, d.patternId, d.archText, d.legText, d.bunionText)
  }

  /** Writes the report for one upload into a fresh document. */
  method ExportDiagnosis(date: string, index: int, legShape: string, hasBunion: string)
    returns (doc: Report.Document)
    requires 0 <= index < 3
    ensures fresh(doc)
    ensures doc.items == ReportOf(date, index, legShape, hasBunion)
  {
    var d := Diagnose(index, legShape, hasBunion);
    doc := Report.ExportReport(date, d.archLabel, legShape, hasBunion, d.patternId, d.archText, d.legText, d.bunionText);
  }

  /**
   * The report carries three description blocks when a bunion is declared and
   * two otherwise, and its arch block always has text.
   */
  lemma ReportSections(date: string, index: int, legShape: string, hasBunion: string)
    requires 0 <= index < 3
    ensures var blocks := Report.Blocks(ReportOf(date, index, legShape, hasBunion));
            |blocks| == (if hasBunion == Pattern.BunionPresent then 3 else 2)
            && blocks[0] != Report.ArchHeading
            && (hasBunion == Pattern.BunionPresent ==> blocks[2] == Report.BunionHeading + Descriptions.BunionDescription)
  {
    var d := Diagnose(index, legShape, hasBunion);
    Report.ReportBlocks(date, d.archLabel, legShape, hasBunion, d.patternId, d.archText, d.legText, d.bunionText);
    assert |Report.ArchHeading + d.archText| > |Report.ArchHeading|;
  }

  /** The report states the classifier's label, the answers and the identifier, in that order. */
  lemma ReportSummary(date: string, index: int, legShape: string, hasBunion: string)
    requires 0 <= index < 3
    ensures Report.Lines(ReportOf(date, index, legShape, hasBunion))
         == [ Report.Title, Report.DatePrefix + date,
              Report.ArchPrefix + Pattern.ArchLabel(index),
              Report.LegPrefix + legShape,
              Report.BunionPrefix + hasBunion,
              Report.PatternLine(Pattern.PatternId(Pattern.ArchLabel(index), legShape, hasBunion)) ]
  {
    var d := Diagnose(index, legShape, hasBunion);
    Report.ReportLines(date, d.archLabel, legShape, hasBunion, d.patternId, d.archText, d.legText, d.bunionText);
  }

  /** A flat arch (index 2), O脚 and no bunion: identifier 1 and two description blocks. */
  lemma FlatOLegWithoutBunion(date: string)
    ensures Diagnose(2, "O脚", Pattern.BunionAbsent).patternId == 1
    ensures |Report.Blocks(ReportOf(date, 2, "O脚", Pattern.BunionAbsent))| == 2
  {
    ReportSections(date, 2, "O脚", Pattern.BunionAbsent);
  }

  /** A high arch (index 0), 正常 and a bunion: the bunion row's 正常 slot, 9, and three blocks. */
  lemma HighNormalLegWithBunion(date: string)
    ensures Diagnose(0, "正常", Pattern.BunionPresent).patternId == 9
    ensures Diagnose(0, "正常", Pattern.BunionPresent).patternId
         == Pattern.PatternId("Bunion", "正常", Pattern.BunionAbsent)
    ensures |Report.Blocks(ReportOf(date, 0, "正常", Pattern.BunionPresent))| == 3
  {
    ReportSections(date, 0, "正常", Pattern.BunionPresent);
  }
}
