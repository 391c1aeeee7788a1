/**
 * The explanatory texts shown for an arch label, a leg shape and a bunion,
 * and the lookups that pick them. The texts themselves are fixed, non-empty
 * Japanese paragraphs; here each stands in as a short non-empty constant,
 * since nothing in the program depends on their wording.
 */
module Descriptions {
  import Dict
  import Pattern

  const FlatText: string := "<flat-arch explanation>"
  const HighText: string := "<high-arch explanation>"
  const NormalArchText: string := "<normal-arch explanation>"
  const OLegText: string := "<o-leg explanation>"
  const XLegText: string := "<x-leg explanation>"
  const NormalLegText: string := "<normal-leg explanation>"
  const BunionDescription: string := "<bunion explanation>"

  /** `arch_descriptions`: one entry per classifier label. */
  const ArchDescriptions: map<string, string> :=
    map["Flat" := FlatText, "High" := HighText, "Normal" := NormalArchText]

  /** `leg_descriptions`: one entry per leg answer. */
  const LegDescriptions: map<string, string> :=
    map["O脚" := OLegText, "X脚" := XLegText, "正常" := NormalLegText]

  /** `arch_descriptions.get(arch_label, "")`: never fails; empty exactly for an unregistered label. */
  function ArchText(archLabel: string): (text: string)
    ensures text != "" <==> archLabel in Pattern.ClassifierLabels
    ensures archLabel in ArchDescriptions ==> text == ArchDescriptions[archLabel]
  {
    Dict.Get(ArchDescriptions, archLabel, "")
  }

  /** `leg_descriptions.get(leg_shape, "")`: never fails; empty exactly for an unregistered answer. */
  function LegText(legShape: string): (text: string)
    ensures text != "" <==> legShape in Pattern.LegShapes
    ensures legShape in LegDescriptions ==> text == LegDescriptions[legShape]
  {
    Dict.Get(LegDescriptions, legShape, "")
  }

  /** The bunion paragraph when a bunion is declared, and nothing otherwise. */
  function BunionText(hasBunion: string): (text: string)
    ensures text != "" <==> hasBunion == Pattern.BunionPresent
    ensures text != "" ==> text == BunionDescription
  {
    if hasBunion == Pattern.BunionPresent then BunionDescription else ""
  }

  /**
   * Whatever index the classifier yields, its label has a registered
   * description, so the arch section of the report is never empty.
   */
  lemma ClassifierLabelDescribed(index: int)
    requires 0 <= index < 3
    ensures Pattern.ArchLabel(index) in ArchDescriptions
    ensures ArchText(Pattern.ArchLabel(index)) != ""
  {
  }

  /** The override row "Bunion" indexes the pattern table only; it has no arch description. */
  lemma BunionRowUndescribed()
    ensures "Bunion" in Pattern.ArchMap && ArchText("Bunion") == ""
  {
  }

  /** Description keys are exactly the keys the resolver recognises (bar the override row). */
  lemma DescriptionKeysMatchResolver()
    ensures ArchDescriptions.Keys == Pattern.ArchMap.Keys - {"Bunion"}
    ensures LegDescriptions.Keys == Pattern.LegMap.Keys
  {
  }
}
