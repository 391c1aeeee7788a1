# Foot-type insole diagnosis: decision and report model

This project models how the foot-assist app turns a diagnosis into a result.
The app is a single Streamlit page. An image classifier puts a photo of a
foot sole into one of three arch classes. The user also answers two
questions: leg shape (O脚, X脚 or 正常) and bunion (あり or なし). The app
then:

- decodes the classifier's argmax index into an arch label (`High`, `Normal`, `Flat`);
- resolves the arch label, leg shape and bunion answer into one of twelve
  insole pattern identifiers;
- looks up an explanation text for the arch label and for the leg shape, plus
  a bunion text when a bunion is declared;
- writes a report document. The report lists a title, the date, the three
  answers (arch label, leg shape, bunion answer) and the identifier as
  `"{id} / 12"`, then the arch and leg explanation blocks, then the bunion
  block only when there is bunion text.

Modules, leaf first:

- `Dict` (`dict.dfy`): Python's `dict.get(key, default)`.
- `Pattern` (`pattern.dfy`): the label map, the arch-row and leg-column tables,
  and `get_pattern_id`. `EffectiveArch` is the bunion override of the arch
  key (app.py:56-57). Keys stay strings, as in the source. An unknown key
  falls back to row 3 (Normal) or column 2 (正常), as the `.get` defaults do.
  Any bunion answer other than `"あり"` counts as no bunion.
- `Descriptions` (`descriptions.dfy`): the three description tables and their
  lookups.
- `Decimal` (`decimal.dfy`): the decimal rendering of the identifier inside the
  report line. A parser reads it back.
- `Report` (`report.dfy`): the report as an ordered list of items. An item is
  a line (`cell`), a block (`multi_cell`) or a gap (`ln`). A `Document` class
  holds the items appended so far, and its methods append one item each, like
  calls on the PDF object. `ExportReport` makes those calls in source order.
  The specification function `ReportItems` (app.py:90-105) gives the result.
- `Diagnosis` (`diagnosis.dfy`): one upload from end to end. The inputs are
  explicit parameters, and the date is a parameter too.

Notes on the code:

- The bunion answer is a string compared with `"あり"` (app.py:56, 69); any other answer counts as no bunion.
- Without a bunion, the nine known (arch, leg) pairs get identifiers 1..6 and
  10..12 (app.py:54, 58). The bunion row holds 7..9, for all three leg columns.
- `label_map` is `0 → High, 1 → Normal, 2 → Flat` (app.py:50).

## Model

| member | source | states |
|---|---|---|
| `Pattern.ArchLabel` | app.py:50-51 | every classifier index 0..2 gives a label of the classifier vocabulary that has an arch-table row and is never the `Bunion` override |
| `Pattern.ArchLabelInjective` | app.py:50-50 | distinct indices give distinct labels, and conversely |
| `Pattern.ArchLabelOnto` | app.py:50-50 | every label of the vocabulary is produced by some index |
| `Pattern.ArchRow` | app.py:54-58 | `arch_map.get(arch, 3)` is a row 0..3, and 3 for an unregistered key |
| `Pattern.LegColumn` | app.py:55-58 | `leg_map.get(leg, 2)` is a column 0..2, and 2 for an unregistered key |
| `Pattern.PatternId` | app.py:53-58 | total on all strings; the result is in 1..12, and in 7..9 when the bunion answer is `あり` |
| `Pattern.CellOf` | app.py:58-58 | the inverse of the layout: `((id-1)/3, (id-1)%3)` is a cell of the 4 x 3 table from which `row*3+col+1` rebuilds `id` |
| `Pattern.RowKey` | app.py:54-54 | the inverse of the arch-row table: each row 0..3 has a key that maps to it |
| `Pattern.ColumnKey` | app.py:55-55 | the inverse of the leg-column table: each column 0..2 has a leg answer that maps to it |
| `Pattern.CellOfLayout` | app.py:58-58 | decoding `row*3+col+1` gives back `(row, col)` for every cell: the layout is injective |
| `Pattern.PatternIdCell` | app.py:56-58 | the identifier decodes to the effective (bunion-overridden) arch row and the leg column |
| `Pattern.PatternIdOnto` | app.py:54-58 | every identifier 1..12 is produced by the keys of its cell: the layout is onto 1..12 |
| `Pattern.BunionOverridesArch` | app.py:56-58 | with `あり`, `EffectiveArch` replaces the arch by `Bunion`, so the arch argument is ignored and the identifier is 7 plus the leg column |
| `Pattern.BunionRow` | app.py:56-58 | with `あり`: O脚 gives 7, X脚 gives 8, 正常 gives 9, and an unknown leg gives 9 |
| `Pattern.NoBunionAvoidsBunionRow` | app.py:54-58 | without `あり` and for any arch key but `Bunion`, the identifier is outside 7..9, and every non-`あり` answer gives the same result as `なし` |
| `Pattern.NoBunionInjective` | app.py:54-58 | without a bunion, two known (label, leg) pairs get equal identifiers exactly when the pairs are equal |
| `Pattern.BunionInjectiveInLeg` | app.py:55-58 | with a bunion, two known leg answers get equal identifiers exactly when they are equal |
| `Pattern.UnknownArchIsNormal` | app.py:58-58 | an unregistered arch label resolves as `Normal` |
| `Pattern.UnknownLegIsNormal` | app.py:58-58 | an unregistered leg answer resolves as `正常` |
| `Pattern.PatternIdSamples` | app.py:53-58 | (Flat, O脚, なし) gives 1; (High, X脚, なし) gives 5; (Normal, 正常, なし) gives 12; (High, 正常, あり) gives 9 |
| `Descriptions.ArchText` | app.py:67-67 | the lookup never fails; it returns the registered text, which is non-empty exactly for the three classifier labels, and "" otherwise |
| `Descriptions.LegText` | app.py:68-68 | the lookup never fails; it returns the registered text, which is non-empty exactly for the three leg answers, and "" otherwise |
| `Descriptions.BunionText` | app.py:69-69 | the bunion text is non-empty exactly when the answer is `あり`, and then it is the bunion description |
| `Descriptions.ClassifierLabelDescribed` | app.py:10-14 | every label the classifier can yield has an arch description, so the arch text is never empty |
| `Descriptions.BunionRowUndescribed` | app.py:54-54 | the override row `Bunion` is a key of the arch table but has no description |
| `Descriptions.DescriptionKeysMatchResolver` | app.py:10-55 | the keys of `arch_descriptions` (lines 10-14) are those of `arch_map` (line 54) without the `Bunion` override row, and the keys of `leg_descriptions` (lines 16-20) are those of `leg_map` (line 55) |
| `Decimal.Format` | app.py:97-97 | the identifier renders as decimal digits: one digit exactly below 10, and no leading zero when longer |
| `Decimal.ParseFormat` | app.py:97-97 | parsing the rendering gives back the number |
| `Decimal.FormatInjective` | app.py:97-97 | distinct numbers render differently |
| `Decimal.FormatPatternIds` | app.py:97-97 | 1 and 9 render as one digit; 10 and 12 as two |
| `Report.HeaderParts` | app.py:90-91 | the header writes the title line and then the date line, and no block; the title item is centered and the date line is not |
| `Report.SummaryLines` | app.py:93-97 | the summary opens with a gap of 5, then writes the arch, leg, bunion and identifier lines in that order, none of them centered |
| `Report.SummaryBlocks` | app.py:93-97 | the summary writes no block |
| `Report.ExplanationsParts` | app.py:99-102 | the explanations write the arch block and then the leg block, and no line |
| `Report.BunionSectionParts` | app.py:103-105 | for non-empty bunion text the section is a gap of 4 followed by one block, and no line; for empty text it writes nothing at all |
| `Report.ReportLines` | app.py:90-97 | the report's lines are title, date, arch label, leg shape, bunion answer and `{id} / 12`, in that order |
| `Report.ReportTitleCentered` | app.py:90-105 | the report's first item is the centered title, and no other line of it is centered |
| `Report.ReportBlocks` | app.py:99-105 | the report's blocks are the arch block and the leg block, then the bunion block only for non-empty text: 3 blocks with bunion text, 2 without |
| `Report.PatternLineReadable` | app.py:97-97 | the identifier line holds a digit string that parses back to the identifier |
| `Report.Document.constructor` | app.py:83-83 | a new document holds no item |
| `Report.Document.Cell` | app.py:90-90 | appends exactly one line item |
| `Report.Document.MultiCell` | app.py:100-100 | appends exactly one block item |
| `Report.Document.Ln` | app.py:93-93 | appends exactly one gap item |
| `Report.ExportReport` | app.py:83-105 | a fresh document receives exactly `ReportItems`, the report's items in order, with the bunion gap and block only for non-empty bunion text |
| `Diagnosis.Diagnose` | app.py:50-69 | for every classifier index: the label is one of the vocabulary; the identifier is in 1..12; the arch text is non-empty; the leg text is non-empty exactly for a known leg answer; the bunion text is non-empty exactly for `あり` |
| `Diagnosis.ExportDiagnosis` | app.py:49-105 | the document written for an upload holds exactly the report of its diagnosis |
| `Diagnosis.ReportSections` | app.py:67-105 | a report has 3 description blocks when the answer is `あり` and 2 otherwise, its arch block is never just a heading, and the third block is the bunion description |
| `Diagnosis.ReportSummary` | app.py:90-97 | the report's lines give the decoded label, the answers and the resolved identifier, in order |
| `Diagnosis.FlatOLegWithoutBunion` | app.py:50-105 | index 2 (Flat), O脚 and なし give identifier 1 and two description blocks |
| `Diagnosis.HighNormalLegWithBunion` | app.py:50-105 | index 0 (High), 正常 and あり give identifier 9, the bunion row's 正常 slot, and three description blocks |

## Left out

- Streamlit UI: the title, radio buttons, file uploader, image preview and banners; the on-screen description sections (app.py:71-79), which use the same bunion condition as the report; the download button. All of this is user interface.
- Loading the classifier and `model.predict`: a foreign call into TensorFlow. The model takes the argmax index as an input in 0..2, which is the only output an argmax over three classes has.
- Image decoding, resizing to 224 x 224, the `/255.0` normalisation and argmax over float probabilities: PIL and NumPy calls and floating point.
- FPDF font embedding, `add_page`, cell widths and heights, and writing and reading `diagnosis_result.pdf`: library rendering and file I/O. Alignment is kept only as the centered flag of the title line. The gap heights of `ln` are kept.
- `datetime.date.today()`: a clock. The date is a parameter, already rendered as text.
- The wording of the description paragraphs: each is a fixed non-empty stand-in constant, because nothing depends on the wording.
- The PDF block at app.py:82 sits outside `if uploaded_file is not None:`, so its names can be unbound when no image was uploaded. Script-global state is not modelled: the report takes its inputs as parameters, as if an upload had happened.
- Python's `str` of a negative integer: the identifier is always 1..12, so `Decimal.Format` handles only naturals.
