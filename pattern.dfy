/**
 * Decoding of the classifier's output and the insole pattern resolver.
 *
 * The classifier's argmax index is turned into an arch label, and the
 * (arch, leg, bunion) answers are turned into one of twelve pattern
 * identifiers laid out arch-major: row (arch) times three plus column (leg)
 * plus one. Inputs are the raw strings the user interface hands over; an
 * unknown key falls back to the Normal row or the 正常 column, exactly as the
 * dictionary defaults do.
 */
module Pattern {
  import Dict

  /** The radio-button answer that declares a bunion. */
  const BunionPresent: string := "あり"
  /** The other radio-button answer. */
  const BunionAbsent: string := "なし"

  /** Classifier output index to arch label. */
  const LabelMap: map<int, string> := map[0 := "High", 1 := "Normal", 2 := "Flat"]

  /** Arch row of the pattern table; "Bunion" is the override row. */
  const ArchMap: map<string, int> := map["Flat" := 0, "High" := 1, "Bunion" := 2, "Normal" := 3]

  /** Leg column of the pattern table. */
  const LegMap: map<string, int> := map["O脚" := 0, "X脚" := 1, "正常" := 2]

  /** Row used when the arch key is not registered (the Normal row). */
  const DefaultRow: int := 3
  /** Column used when the leg key is not registered (the 正常 column). */
  const DefaultColumn: int := 2

  /** The labels the classifier can produce. */
  const ClassifierLabels: set<string> := {"High", "Normal", "Flat"}
  /** The leg answers the user interface offers. */
  const LegShapes: set<string> := {"O脚", "X脚", "正常"}

  /** Number of leg columns, and the number of identifiers. */
  const Columns: int := 3
  const PatternCount: int := 12

  /**
   * `label_map[argmax]`: the argmax of a three-class probability vector is
   * 0, 1 or 2, and each of them has a label the classifier vocabulary knows.
   */
  function ArchLabel(index: int): (name: string)
    requires 0 <= index < 3
    ensures name in ClassifierLabels
    ensures name in ArchMap && name != "Bunion"
  {
    LabelMap[index]
  }

  /** The arch key the resolver indexes with: the bunion flag overrides the label. */
  function EffectiveArch(arch: string, bunion: string): string
  {
    if bunion == BunionPresent then "Bunion" else arch
  }

  /** `arch_map.get(arch, 3)`. */
  function ArchRow(arch: string): (row: int)
    ensures 0 <= row < 4
    ensures arch !in ArchMap ==> row == DefaultRow
  {
    Dict.Get(ArchMap, arch, DefaultRow)
  }

  /** `leg_map.get(leg, 2)`. */
  function LegColumn(leg: string): (col: int)
    ensures 0 <= col < Columns
    ensures leg !in LegMap ==> col == DefaultColumn
  {
    Dict.Get(LegMap, leg, DefaultColumn)
  }

  /**
   * `get_pattern_id(arch, leg, bunion)`: total over all strings and always
   * one of the twelve identifiers.
   */
  function PatternId(arch: string, leg: string, bunion: string): (id: int)
    ensures 1 <= id <= PatternCount
    ensures bunion == BunionPresent ==> 7 <= id <= 9
  {
    ArchRow(EffectiveArch(arch, bunion)) * Columns + LegColumn(leg) + 1
  }

  /** The table cell (row, column) an identifier names: the inverse of the layout. */
  function CellOf(id: int): (cell: (int, int))
    requires 1 <= id <= PatternCount
    ensures 0 <= cell.0 < 4 && 0 <= cell.1 < Columns
    ensures cell.0 * Columns + cell.1 + 1 == id
  {
    ((id - 1) / Columns, (id - 1) % Columns)
  }

  /** Arch key of each row: the inverse of `ArchMap`. */
  function RowKey(row: int): (arch: string)
    requires 0 <= row < 4
    ensures arch in ArchMap && ArchMap[arch] == row
  {
    if row == 0 then "Flat" else if row == 1 then "High" else if row == 2 then "Bunion" else "Normal"
  }

  /** Leg key of each column: the inverse of `LegMap`. */
  function ColumnKey(col: int): (leg: string)
    requires 0 <= col < Columns
    ensures leg in LegShapes && leg in LegMap && LegMap[leg] == col
  {
    if col == 0 then "O脚" else if col == 1 then "X脚" else "正常"
  }

  /** The layout is injective on the 4 x 3 table: an identifier determines its cell. */
  lemma CellOfLayout(row: int, col: int)
    requires 0 <= row < 4 && 0 <= col < Columns
    ensures CellOf(row * Columns + col + 1) == (row, col)
  {
  }

  /** Every identifier the resolver returns decodes to the effective row and the leg column. */
  lemma PatternIdCell(arch: string, leg: string, bunion: string)
    ensures CellOf(PatternId(arch, leg, bunion)) == (ArchRow(EffectiveArch(arch, bunion)), LegColumn(leg))
  {
  }

  /** The resolver is onto 1..12: each identifier is reached by the keys of its cell. */
  lemma PatternIdOnto(id: int)
    requires 1 <= id <= PatternCount
    ensures var cell := CellOf(id);
            PatternId(RowKey(cell.0), ColumnKey(cell.1), BunionAbsent) == id
  {
  }

  /** With a bunion declared, the arch argument is ignored: only the leg decides. */
  lemma BunionOverridesArch(arch1: string, arch2: string, leg: string)
    ensures PatternId(arch1, leg, BunionPresent) == PatternId(arch2, leg, BunionPresent)
    ensures PatternId(arch1, leg, BunionPresent) == 7 + LegColumn(leg)
  {
  }

  /** The bunion row read off per leg shape, and for an unknown leg. */
  lemma BunionRow(arch: string, leg: string)
    ensures PatternId(arch, "O脚", BunionPresent) == 7
    ensures PatternId(arch, "X脚", BunionPresent) == 8
    ensures PatternId(arch, "正常", BunionPresent) == 9
    ensures leg !in LegMap ==> PatternId(arch, leg, BunionPresent) == 9
  {
  }

  /**
   * Without a bunion, no classifier label reaches the bunion row 7..9, and any
   * answer other than "あり" counts as no bunion.
   */
  lemma NoBunionAvoidsBunionRow(arch: string, leg: string, bunion: string)
    requires bunion != BunionPresent && arch != "Bunion"
    ensures !(7 <= PatternId(arch, leg, bunion) <= 9)
    ensures PatternId(arch, leg, bunion) == PatternId(arch, leg, BunionAbsent)
  {
  }

  /**
   * Without a bunion the nine (label, leg) pairs get nine distinct
   * identifiers: equal identifiers mean equal pairs, and conversely.
   */
  lemma NoBunionInjective(arch1: string, leg1: string, arch2: string, leg2: string, bunion: string)
    requires bunion != BunionPresent
    requires arch1 in ClassifierLabels && arch2 in ClassifierLabels
    requires leg1 in LegShapes && leg2 in LegShapes
    ensures PatternId(arch1, leg1, bunion) == PatternId(arch2, leg2, bunion) <==> arch1 == arch2 && leg1 == leg2
  {
  }

  /** With a bunion, two identifiers agree exactly when the leg columns agree. */
  lemma BunionInjectiveInLeg(arch1: string, leg1: string, arch2: string, leg2: string)
    requires leg1 in LegShapes && leg2 in LegShapes
    ensures PatternId(arch1, leg1, BunionPresent) == PatternId(arch2, leg2, BunionPresent) <==> leg1 == leg2
  {
  }

  /** An unregistered arch label is resolved as the Normal row. */
  lemma UnknownArchIsNormal(arch: string, leg: string, bunion: string)
    requires arch !in ArchMap
    ensures PatternId(arch, leg, bunion) == PatternId("Normal", leg, bunion)
  {
  }

  /** An unregistered leg answer is resolved as the 正常 column. */
  lemma UnknownLegIsNormal(arch: string, leg: string, bunion: string)
    requires leg !in LegMap
    ensures PatternId(arch, leg, bunion) == PatternId(arch, "正常", bunion)
  {
  }

  /** Sample identifiers from the table. */
  lemma PatternIdSamples()
    ensures PatternId("Flat", "O脚", BunionAbsent) == 1
    ensures PatternId("High", "X脚", BunionAbsent) == 5
    ensures PatternId("Normal", "正常", BunionAbsent) == 12
    ensures PatternId("High", "正常", BunionPresent) == 9
  {
  }

  /** `label_map` is injective: distinct classifier indices give distinct labels. */
  lemma ArchLabelInjective(i: int, j: int)
    requires 0 <= i < 3 && 0 <= j < 3
    ensures ArchLabel(i) == ArchLabel(j) <==> i == j
  {
  }

  /** `label_map` is onto the classifier vocabulary. */
  lemma ArchLabelOnto(name: string)
    requires name in ClassifierLabels
    ensures exists i :: 0 <= i < 3 && ArchLabel(i) == name
  {
    if name == "High" {
      assert ArchLabel(0) == name;
    } else if name == "Normal" {
      assert ArchLabel(1) == name;
    } else {
      assert ArchLabel(2) == name;
    }
  }
}
