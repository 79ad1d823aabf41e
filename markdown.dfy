// The markdown report of pdf_service.py: `generate_markdown` builds the report
// text with `+=` (lines 316-402), and `markdown_to_pdf` reads such a text back
// into the list of layout elements it hands to the PDF library (lines 219-301).
module Markdown {
  import opened Wrappers
  import opened PyStr
  import opened Seqs
  import Dedup
  import opened Reference
  import Matching

  /** A characteristic as the report dictionary carries it; a missing `effect_direction` key is `None`. */
  datatype MdCharacteristic = MdCharacteristic(name: string, description: string, effectDirection: Option<string>)

  /** A mutation of the report dictionary; a missing `category` key is `None`. */
  datatype MdMutation = MdMutation(gene: string, rsid: string, allele1: string, allele2: string, effect: string,
                                   category: Option<string>, characteristics: seq<MdCharacteristic>)

  /** The report dictionary; a missing `summary` key is `None`, a missing list is empty. */
  datatype MdReport = MdReport(summary: Option<string>, mutations: seq<MdMutation>,
                               prioritize: seq<Beneficial>, caution: seq<Caution>)

  /** The dictionary view of a report the analysis services assemble: every key is present. */
  function ReportDict(r: Matching.Report): (d: MdReport)
    ensures |d.mutations| == |r.mutations|
    ensures forall i :: 0 <= i < |r.mutations| ==>
      d.mutations[i].rsid == r.mutations[i].rsid && d.mutations[i].category == Some(r.mutations[i].category)
  {
    MdReport(Some(r.summary.GetOr(Matching.FallbackSummary)), Map(r.mutations, MutationDict), r.prioritize, r.caution)
  }

  function MutationDict(m: Matching.Mutation): MdMutation {
    MdMutation(m.gene, m.rsid, m.allele1, m.allele2, m.effect, Some(m.category), Map(m.characteristics, CharacteristicDict))
  }

  function CharacteristicDict(c: Characteristic): MdCharacteristic {
    MdCharacteristic(c.name, c.description, Some(c.effectDirection))
  }

  // ---------------------------------------------------------------------------
  // generate_markdown
  // ---------------------------------------------------------------------------

  const ReportTitle: string := "# Your Genetic Skincare Report"
  const Title: string := ReportTitle + "\n## " + "A story written by your DNA\n\n## Summary: The Story of Your Skin\n"
  const MutationsTitle: string := "Your Genetic Mutations"
  const MutationsHeading: string := "\n\n## " + MutationsTitle + "\n"
  const HeaderRow: string := "| Gene | rsID | Alleles | Impact |"
  const SeparatorRow: string := "|------|------|---------|--------|"
  const TableHead: string := "\n" + HeaderRow + "\n" + SeparatorRow + "\n"
  const CharacteristicsHeading: string := "\n## Skin Characteristics Affected\n\n"
  const IngredientsHeading: string := "\n## Ingredient Recommendations\n\n"
  const PrioritizeHeading: string := "\n### Prioritize These\n\n"
  const CautionHeading: string := "\n### Approach With Caution\n\n"

  /** The fixed start of the report, up to and including the table's separator line. */
  function Opening(summary: string): string {
    Title + summary + MutationsHeading + TableHead
  }

  /** The table row of a mutation, `| gene | rsid | allele1/allele2 | effect |` and a line break. */
  function MutationRow(m: MdMutation): string {
    var alleles := m.allele1 + "/" + m.allele2;
    "| " + m.gene + " | " + m.rsid + " | " + alleles + " | " + m.effect + " |\n"
  }

  predicate HasCharacteristics(m: MdMutation) {
    |m.characteristics| > 0
  }

  predicate AnyCharacteristics(ms: seq<MdMutation>) {
    exists i :: 0 <= i < |ms| && HasCharacteristics(ms[i])
  }

  /** The heading of a mutation's block; a missing category reads "Unknown". */
  function BlockHeading(m: MdMutation): string {
    var category := if m.category.Some? then m.category.value else "Unknown";
    "### " + m.gene + " (" + category + ")\n\n"
  }

  /** A characteristic's list line; a missing effect direction reads "Affects". */
  function CharacteristicLine(c: MdCharacteristic): string {
    var effect := if c.effectDirection.Some? then c.effectDirection.value else "Affects";
    "- **" + c.name + "**: " + effect + " - " + c.description + "\n"
  }

  function CharacteristicBlock(m: MdMutation): string {
    if HasCharacteristics(m) then BlockHeading(m) + FlatMap(m.characteristics, CharacteristicLine) + "\n" else ""
  }

  function CharacteristicsSection(ms: seq<MdMutation>): string {
    if AnyCharacteristics(ms) then CharacteristicsHeading + "\n" + FlatMap(ms, CharacteristicBlock) else ""
  }

  function BeneficialName(b: Beneficial): string {
    b.ingredientName
  }

  function CautionName(c: Caution): string {
    c.ingredientName
  }

  function PrioritizeLine(b: Beneficial): string {
    "- **" + b.ingredientName + "**: " + b.benefitMechanism + "\n"
  }

  function CautionLine(c: Caution): string {
    "- **" + c.ingredientName + "**: " + c.riskMechanism + "\n"
  }

  function IngredientsSection(prioritize: seq<Beneficial>, caution: seq<Caution>): string {
    IngredientsHeading + PrioritizeHeading + FlatMap(Dedup.Dedup(prioritize, BeneficialName), PrioritizeLine)
    + CautionHeading + FlatMap(Dedup.Dedup(caution, CautionName), CautionLine)
  }

  /** The whole report text. */
  function MarkdownOf(r: MdReport): string {
    Opening(r.summary.GetOr(Matching.FallbackSummary)) + FlatMap(r.mutations, MutationRow)
    + CharacteristicsSection(r.mutations) + IngredientsSection(r.prioritize, r.caution)
  }

  /** Where the text is saved: nowhere for an empty `output_path`, else the path with every ".pdf" made ".md". */
  function SidePath(outputPath: string): Option<string> {
    if outputPath == "" then None else Some(ReplaceAll(outputPath, ".pdf", ".md"))
  }

  method GenerateMarkdown(report: MdReport, outputPath: string) returns (content: string, mdPath: Option<string>)
    ensures content == MarkdownOf(report)
    ensures mdPath == SidePath(outputPath)
  {
    var summary := if report.summary.Some? then report.summary.value else Matching.FallbackSummary;
    content := Opening(summary);
    content := AppendRows(content, report.mutations);
    content := AppendCharacteristics(content, report.mutations);
    content := AppendIngredients(content, report.prioritize, report.caution);
    if outputPath != "" {
      mdPath := Some(ReplaceAll(outputPath, ".pdf", ".md"));
    } else {
      mdPath := None;
    }
  }

  /** The characteristics section, written only when some mutation has characteristics. */
  method AppendCharacteristics(prefix: string, ms: seq<MdMutation>) returns (content: string)
    ensures content == prefix + CharacteristicsSection(ms)
  {
    content := prefix;
    var any := FindCharacteristics(ms);
    if any {
      content := content + CharacteristicsHeading;
      content := content + "\n";
      content := AppendBlocks(content, ms);
      AppendAssoc(prefix + CharacteristicsHeading, "\n", FlatMap(ms, CharacteristicBlock));
      AppendAssoc(prefix, CharacteristicsHeading, "\n" + FlatMap(ms, CharacteristicBlock));
      AppendAssoc(CharacteristicsHeading, "\n", FlatMap(ms, CharacteristicBlock));
    }
  }

  /** The scan for a mutation with characteristics, which stops at the first one. */
  method FindCharacteristics(ms: seq<MdMutation>) returns (any: bool)
    ensures any <==> AnyCharacteristics(ms)
  {
    any := false;
    var i := 0;
    while i < |ms|
      invariant 0 <= i <= |ms|
      invariant !any
      invariant forall j :: 0 <= j < i ==> !HasCharacteristics(ms[j])
    {
      if |ms[i].characteristics| > 0 {
        any := true;
        break;
      }
      i := i + 1;
    }
  }

  method AppendIngredients(prefix: string, prioritize: seq<Beneficial>, caution: seq<Caution>) returns (content: string)
    ensures content == prefix + IngredientsSection(prioritize, caution)
  {
    content := prefix + IngredientsHeading;
    content := content + PrioritizeHeading;
    var uniquePrioritize := Dedup.DedupByName(prioritize, BeneficialName);
    content := AppendPrioritized(content, uniquePrioritize);
    content := content + CautionHeading;
    var uniqueCautions := Dedup.DedupByName(caution, CautionName);
    content := AppendCautions(content, uniqueCautions);
    AppendAssoc5(prefix, IngredientsHeading, PrioritizeHeading, FlatMap(uniquePrioritize, PrioritizeLine),
                 CautionHeading, FlatMap(uniqueCautions, CautionLine));
  }

  lemma AppendAssoc5(a: string, b: string, c: string, d: string, e: string, f: string)
    ensures a + b + c + d + e + f == a + (b + c + d + e + f)
  {
  }

  method AppendRows(prefix: string, ms: seq<MdMutation>) returns (content: string)
    ensures content == prefix + FlatMap(ms, MutationRow)
  {
    content := prefix;
    var i := 0;
    while i < |ms|
      invariant 0 <= i <= |ms|
      invariant content == prefix + FlatMap(ms[..i], MutationRow)
    {
      FlatMapStep(ms, i, MutationRow);
      AppendAssoc(prefix, FlatMap(ms[..i], MutationRow), MutationRow(ms[i]));
      var m := ms[i];
      var alleles := m.allele1 + "/" + m.allele2;
      content := content + ("| " + m.gene + " | " + m.rsid + " | " + alleles + " | " + m.effect + " |\n");
      i := i + 1;
    }
    TakeAll(ms);
  }

  method AppendBlocks(prefix: string, ms: seq<MdMutation>) returns (content: string)
    ensures content == prefix + FlatMap(ms, CharacteristicBlock)
  {
    content := prefix;
    var i := 0;
    while i < |ms|
      invariant 0 <= i <= |ms|
      invariant content == prefix + FlatMap(ms[..i], CharacteristicBlock)
    {
      FlatMapStep(ms, i, CharacteristicBlock);
      AppendAssoc(prefix, FlatMap(ms[..i], CharacteristicBlock), CharacteristicBlock(ms[i]));
      var m := ms[i];
      if |m.characteristics| > 0 {
        ghost var before := content;
        var category := if m.category.Some? then m.category.value else "Unknown";
        content := content + ("### " + m.gene + " (" + category + ")\n\n");
        content := AppendCharacteristicLines(content, m.characteristics);
        content := content + "\n";
        AppendAssoc(before, BlockHeading(m), FlatMap(m.characteristics, CharacteristicLine));
        AppendAssoc(before, BlockHeading(m) + FlatMap(m.characteristics, CharacteristicLine), "\n");
      }
      i := i + 1;
    }
    TakeAll(ms);
  }

  method AppendCharacteristicLines(prefix: string, cs: seq<MdCharacteristic>) returns (content: string)
    ensures content == prefix + FlatMap(cs, CharacteristicLine)
  {
    content := prefix;
    var j := 0;
    while j < |cs|
      invariant 0 <= j <= |cs|
      invariant content == prefix + FlatMap(cs[..j], CharacteristicLine)
    {
      FlatMapStep(cs, j, CharacteristicLine);
      AppendAssoc(prefix, FlatMap(cs[..j], CharacteristicLine), CharacteristicLine(cs[j]));
      var c := cs[j];
      var effect := if c.effectDirection.Some? then c.effectDirection.value else "Affects";
      content := content + ("- **" + c.name + "**: " + effect + " - " + c.description + "\n");
      j := j + 1;
    }
    TakeAll(cs);
  }

  method AppendPrioritized(prefix: string, xs: seq<Beneficial>) returns (content: string)
    ensures content == prefix + FlatMap(xs, PrioritizeLine)
  {
    content := prefix;
    var i := 0;
    while i < |xs|
      invariant 0 <= i <= |xs|
      invariant content == prefix + FlatMap(xs[..i], PrioritizeLine)
    {
      FlatMapStep(xs, i, PrioritizeLine);
      AppendAssoc(prefix, FlatMap(xs[..i], PrioritizeLine), PrioritizeLine(xs[i]));
      content := content + ("- **" + xs[i].ingredientName + "**: " + xs[i].benefitMechanism + "\n");
      i := i + 1;
    }
    TakeAll(xs);
  }

  method AppendCautions(prefix: string, xs: seq<Caution>) returns (content: string)
    ensures content == prefix + FlatMap(xs, CautionLine)
  {
    content := prefix;
    var i := 0;
    while i < |xs|
      invariant 0 <= i <= |xs|
      invariant content == prefix + FlatMap(xs[..i], CautionLine)
    {
      FlatMapStep(xs, i, CautionLine);
      AppendAssoc(prefix, FlatMap(xs[..i], CautionLine), CautionLine(xs[i]));
      content := content + ("- **" + xs[i].ingredientName + "**: " + xs[i].riskMechanism + "\n");
      i := i + 1;
    }
    TakeAll(xs);
  }
  // ---------------------------------------------------------------------------
  // markdown_to_pdf
  // ---------------------------------------------------------------------------

  /** What `markdown_to_pdf` appends to its element list; fonts, colours and padding are left to the PDF library. */
  datatype Element = Heading1(text: string) | Heading2(text: string) | Heading3(text: string)
                   | TableBlock(cells: seq<seq<string>>) | ListItem(text: string) | Body(text: string)
                   | Spacer(height: nat)

  /** The list bullet as the source file spells it: "•" (U+2022) mis-decoded as Windows-1252, then a space. */
  const Bullet: string := "\U{00E2}\U{20AC}\U{00A2} "

  datatype Table = Table(header: seq<string>, rows: seq<seq<string>>)

  predicate IsTableLine(line: string) {
    '|' in line && Strip(line) != ""
  }

  /** `[line.strip() for line in content.split('\n') if '|' in line and line.strip()]`. */
  function TableLines(content: string): seq<string> {
    Map(Filter(Split(content, '\n'), IsTableLine), Strip)
  }

  /** `[cell.strip() for cell in row.split('|')[1:-1]]`. */
  function RowCells(row: string): seq<string> {
    Map(PySlice(Split(row, '|'), 1, -1), Strip)
  }

  /** The first table line is the header, the second (the separator) is skipped, the rest are data rows. */
  function ParseTable(content: string): Option<Table> {
    var lines := TableLines(content);
    if |lines| >= 2 then Some(Table(RowCells(lines[0]), Map(lines[2..], RowCells))) else None
  }

  function TableElements(content: string): seq<Element> {
    match ParseTable(content)
    case None => []
    case Some(t) => [TableBlock([t.header] + t.rows), Spacer(12)]
  }

  /** `item.replace('**', '<b>', 1).replace('**', '</b>', 1)`. */
  function Bold(item: string): string {
    ReplaceFirst(ReplaceFirst(item, "**", "<b>"), "**", "</b>")
  }

  function ItemElements(item: string): seq<Element> {
    if Strip(item) != "" then [ListItem(Bullet + Strip(Bold(item))), Spacer(4)] else []
  }

  /** `paragraph.split('\n- ')`, which leaves the first item with its "- " marker. */
  function ListItemsAsWritten(paragraph: string): seq<string> {
    SplitOn(paragraph, "\n- ")
  }

  /** The items of a list paragraph, the first item's marker removed like the others'. */
  function ListItems(paragraph: string): seq<string>
    requires StartsWith(paragraph, "- ")
  {
    SplitOn(paragraph[2..], "\n- ")
  }

  /** The paragraph rule with the corrected list split (`ListItems`), which rendering uses. */
  function ParagraphElements(paragraph: string): seq<Element> {
    if Strip(paragraph) == "" then []
    else if StartsWith(paragraph, "### ") then [Heading3(ReplaceAll(paragraph, "### ", ""))]
    else if StartsWith(paragraph, "- ") then FlatMap(ListItems(paragraph), ItemElements)
    else [Body(paragraph), Spacer(8)]
  }

  /** The paragraph rule as written, splitting the list with its first marker still in place. */
  function ParagraphElementsAsWritten(paragraph: string): seq<Element> {
    if Strip(paragraph) == "" then []
    else if StartsWith(paragraph, "### ") then [Heading3(ReplaceAll(paragraph, "### ", ""))]
    else if StartsWith(paragraph, "- ") then FlatMap(ListItemsAsWritten(paragraph), ItemElements)
    else [Body(paragraph), Spacer(8)]
  }

  function SectionElements(section: string): seq<Element> {
    var lines := Split(section, '\n');
    var content := Join(lines[1..], "\n");
    [Heading2(lines[0]), Spacer(6)]
    + (if Contains(lines[0], "Your Genetic Mutations") then TableElements(content)
       else FlatMap(SplitOn(content, "\n\n"), ParagraphElements))
  }

  function TitleElements(section: string): seq<Element> {
    var lines := Split(Strip(section), '\n');
    [Heading1(ReplaceAll(lines[0], "# ", "")), Spacer(12)]
    + (if |lines| > 1 then [Heading3(ReplaceAll(lines[1], "## ", "")), Spacer(12)] else [])
  }

  /** The elements of a whole document, whose sections are separated by "\n## ". */
  function DocumentElements(markdown: string): seq<Element> {
    var sections := SplitOn(markdown, "\n## ");
    TitleElements(sections[0]) + FlatMap(sections[1..], SectionElements)
  }

  /** `markdown_to_pdf`'s flowables, lists split as corrected (`ListItems`). */
  method MarkdownToPdf(markdown: string) returns (elements: seq<Element>)
    ensures elements == DocumentElements(markdown)
  {
    var sections := SplitOn(markdown, "\n## ");
    elements := RenderTitle(sections[0]);
    var rest := sections[1..];
    var i := 0;
    while i < |rest|
      invariant 0 <= i <= |rest|
      invariant elements == TitleElements(sections[0]) + FlatMap(rest[..i], SectionElements)
    {
      FlatMapStep(rest, i, SectionElements);
      AppendAssoc(TitleElements(sections[0]), FlatMap(rest[..i], SectionElements), SectionElements(rest[i]));
      var more := RenderSection(rest[i]);
      elements := elements + more;
      i := i + 1;
    }
    TakeAll(rest);
  }

  /** The title and, when the first section has a second line, the subtitle. */
  method RenderTitle(section: string) returns (es: seq<Element>)
    ensures es == TitleElements(section)
  {
    var titleLines := Split(Strip(section), '\n');
    var title := ReplaceAll(titleLines[0], "# ", "");
    es := [Heading1(title), Spacer(12)];
    if |titleLines| > 1 {
      var subtitle := ReplaceAll(titleLines[1], "## ", "");
      es := es + [Heading3(subtitle), Spacer(12)];
    }
  }

  /** One "## " section: its heading, then its table or its paragraphs. */
  method RenderSection(section: string) returns (es: seq<Element>)
    ensures es == SectionElements(section)
  {
    var lines := Split(section, '\n');
    var title := lines[0];
    var content := Join(lines[1..], "\n");
    es := [Heading2(title), Spacer(6)];
    if Contains(title, "Your Genetic Mutations") {
      var table := RenderTable(content);
      es := es + table;
    } else {
      var more := RenderParagraphs(SplitOn(content, "\n\n"));
      es := es + more;
    }
  }

  /** The paragraphs of a section, in order. */
  method RenderParagraphs(paragraphs: seq<string>) returns (es: seq<Element>)
    ensures es == FlatMap(paragraphs, ParagraphElements)
  {
    es := [];
    var i := 0;
    while i < |paragraphs|
      invariant 0 <= i <= |paragraphs|
      invariant es == FlatMap(paragraphs[..i], ParagraphElements)
    {
      FlatMapStep(paragraphs, i, ParagraphElements);
      var more := RenderParagraph(paragraphs[i]);
      es := es + more;
      i := i + 1;
    }
    TakeAll(paragraphs);
  }

  /** One paragraph, a list split as corrected (`ListItems`). */
  method RenderParagraph(paragraph: string) returns (es: seq<Element>)
    ensures es == ParagraphElements(paragraph)
  {
    if Strip(paragraph) == "" {
      es := [];
    } else if StartsWith(paragraph, "### ") {
      es := [Heading3(ReplaceAll(paragraph, "### ", ""))];
    } else if StartsWith(paragraph, "- ") {
      es := RenderListItems(ListItems(paragraph));
    } else {
      es := [Body(paragraph), Spacer(8)];
    }
  }

  method RenderListItems(items: seq<string>) returns (es: seq<Element>)
    ensures es == FlatMap(items, ItemElements)
  {
    es := [];
    var i := 0;
    while i < |items|
      invariant 0 <= i <= |items|
      invariant es == FlatMap(items[..i], ItemElements)
    {
      FlatMapStep(items, i, ItemElements);
      var more := RenderItem(items[i]);
      es := es + more;
      i := i + 1;
    }
    TakeAll(items);
  }

  method RenderItem(item: string) returns (es: seq<Element>)
    ensures es == ItemElements(item)
  {
    es := [];
    if Strip(item) != "" {
      var bolded := ReplaceFirst(ReplaceFirst(item, "**", "<b>"), "**", "</b>");
      es := es + [ListItem(Bullet + Strip(bolded))];
      es := es + [Spacer(4)];
    }
  }

  method RenderTable(content: string) returns (es: seq<Element>)
    ensures es == TableElements(content)
  {
    var tableLines := TableLines(content);
    es := [];
    if |tableLines| >= 2 {
      var headers := RowCells(tableLines[0]);
      var rows := RenderRows(tableLines[2..]);
      es := es + [TableBlock([headers] + rows), Spacer(12)];
    }
  }

  /** The data rows of the table, cell lists in row order. */
  method RenderRows(dataRows: seq<string>) returns (tableRows: seq<seq<string>>)
    ensures tableRows == Map(dataRows, RowCells)
  {
    tableRows := [];
    var i := 0;
    while i < |dataRows|
      invariant 0 <= i <= |dataRows|
      invariant tableRows == Map(dataRows[..i], RowCells)
    {
      MapStep(dataRows, i, RowCells);
      tableRows := tableRows + [RowCells(dataRows[i])];
      i := i + 1;
    }
    TakeAll(dataRows);
  }
  // ---------------------------------------------------------------------------
  // What the two halves promise each other
  // ---------------------------------------------------------------------------

  /** A cell the table round trip preserves: no pipe, no line break, no surrounding whitespace. */
  predicate CleanCell(x: string) {
    '|' !in x && '\n' !in x && (x == [] || (!IsSpace(x[0]) && !IsSpace(x[|x| - 1])))
  }

  function Pad(x: string): string {
    " " + x + " "
  }

  /** A table line `| a | b | c | d |`. */
  function Row4(a: string, b: string, c: string, d: string): string {
    "| " + a + " | " + b + " | " + c + " | " + d + " |"
  }

  function MutationCells(m: MdMutation): seq<string> {
    [m.gene, m.rsid, m.allele1 + "/" + m.allele2, m.effect]
  }

  function MutationLine(m: MdMutation): string {
    Row4(m.gene, m.rsid, m.allele1 + "/" + m.allele2, m.effect)
  }

  predicate CleanMutation(m: MdMutation) {
    CleanCell(m.gene) && CleanCell(m.rsid) && CleanCell(m.allele1 + "/" + m.allele2) && CleanCell(m.effect)
  }

  const HeaderCells: seq<string> := ["Gene", "rsID", "Alleles", "Impact"]

  lemma Row4AsJoin(a: string, b: string, c: string, d: string)
    ensures Row4(a, b, c, d) == Join(["", Pad(a), Pad(b), Pad(c), Pad(d), ""], "|")
  {
    var ps := ["", Pad(a), Pad(b), Pad(c), Pad(d), ""];
    assert Join(ps[5..], "|") == "";
    assert Join(ps[4..], "|") == Pad(d) + "|" + "";
    assert Join(ps[3..], "|") == Pad(c) + "|" + Join(ps[4..], "|");
    assert Join(ps[2..], "|") == Pad(b) + "|" + Join(ps[3..], "|");
    assert Join(ps[1..], "|") == Pad(a) + "|" + Join(ps[2..], "|");
    assert Join(ps, "|") == "" + "|" + Join(ps[1..], "|");
  }

  lemma StripPadded(x: string)
    requires x == [] || (!IsSpace(x[0]) && !IsSpace(x[|x| - 1]))
    ensures Strip(Pad(x)) == x
  {
    var p := Pad(x);
    assert p == [' '] + (x + [' ']);
    TrimLeftSpace(' ', x + [' ']);
    if x == [] {
      TrimLeftSpace(' ', []);
    } else {
      assert (x + [' '])[0] == x[0];
      assert TrimLeft(x + [' ']) == x + [' '];
      TrimRightSpace(x, ' ');
      assert TrimRight(x) == x;
    }
  }

  /** A row written with clean cells reads back as exactly those cells. */
  lemma RowCellsRoundTrip(a: string, b: string, c: string, d: string)
    requires CleanCell(a) && CleanCell(b) && CleanCell(c) && CleanCell(d)
    ensures RowCells(Row4(a, b, c, d)) == [a, b, c, d]
  {
    var ps := ["", Pad(a), Pad(b), Pad(c), Pad(d), ""];
    SplitRow4(a, b, c, d);
    assert PySlice(ps, 1, -1) == [Pad(a), Pad(b), Pad(c), Pad(d)];
    StripPads(a, b, c, d);
  }

  lemma SplitRow4(a: string, b: string, c: string, d: string)
    requires '|' !in a && '|' !in b && '|' !in c && '|' !in d
    ensures Split(Row4(a, b, c, d), '|') == ["", Pad(a), Pad(b), Pad(c), Pad(d), ""]
  {
    var ps := ["", Pad(a), Pad(b), Pad(c), Pad(d), ""];
    Row4AsJoin(a, b, c, d);
    PadNoPipe(a);
    PadNoPipe(b);
    PadNoPipe(c);
    PadNoPipe(d);
    SplitJoin(ps, '|');
  }

  lemma PadNoPipe(x: string)
    requires '|' !in x
    ensures '|' !in Pad(x)
  {
    assert forall i :: 0 <= i < |Pad(x)| ==> Pad(x)[i] == ' ' || Pad(x)[i] == x[i - 1];
  }

  lemma StripPads(a: string, b: string, c: string, d: string)
    requires CleanCell(a) && CleanCell(b) && CleanCell(c) && CleanCell(d)
    ensures Map([Pad(a), Pad(b), Pad(c), Pad(d)], Strip) == [a, b, c, d]
  {
    StripPadded(a);
    StripPadded(b);
    StripPadded(c);
    StripPadded(d);
    var xs := [Pad(a), Pad(b), Pad(c), Pad(d)];
    var r := Map(xs, Strip);
    assert r[0] == Strip(xs[0]) && r[1] == Strip(xs[1]) && r[2] == Strip(xs[2]) && r[3] == Strip(xs[3]);
    FourElements(r, a, b, c, d);
  }

  lemma MutationRowShape(m: MdMutation)
    ensures MutationRow(m) == MutationLine(m) + "\n"
  {
  }

  lemma HeaderRowShape()
    ensures HeaderRow == Row4("Gene", "rsID", "Alleles", "Impact")
  {
  }

  /** The header line reads back as the four column names. */
  lemma HeaderRowCells()
    ensures RowCells(HeaderRow) == HeaderCells
  {
    HeaderRowShape();
    RowCellsRoundTrip("Gene", "rsID", "Alleles", "Impact");
  }
  /** The table as `generate_markdown` writes it: a blank line, header, separator, one row per mutation. */
  function TableText(ms: seq<MdMutation>): string {
    TableHead + FlatMap(ms, MutationRow)
  }

  /** A line the table reader keeps unchanged: it starts and ends with a pipe and has no line break. */
  predicate PipeLine(x: string) {
    |x| >= 1 && x[0] == '|' && x[|x| - 1] == '|' && '\n' !in x
  }

  function TableLineList(ms: seq<MdMutation>): seq<string> {
    [HeaderRow, SeparatorRow] + Map(ms, MutationLine)
  }

  lemma JoinThree(a: string, b: string, c: string, sep: string)
    ensures Join([a, b, c], sep) == a + sep + b + sep + c
  {
    assert [a, b, c][1..] == [b, c];
    assert [b, c][1..] == [c];
    assert Join([b, c], sep) == b + sep + c;
    AppendAssoc(a + sep, b + sep, c);
    AppendAssoc(a + sep, b, sep);
  }

  lemma TableHeadLines()
    ensures Join(["", HeaderRow, SeparatorRow], "\n") + "\n" == TableHead
  {
    JoinThree("", HeaderRow, SeparatorRow, "\n");
    EmptyLeft("\n");
  }

  /** Lines joined by line breaks and ended by one are the lines each followed by a line break. */
  lemma {:induction false} LinesFlatMap<A>(head: seq<string>, xs: seq<A>, line: A -> string, row: A -> string)
    requires |head| >= 1
    requires forall i :: 0 <= i < |xs| ==> row(xs[i]) == line(xs[i]) + "\n"
    ensures Join(head + Map(xs, line), "\n") + "\n" == Join(head, "\n") + "\n" + FlatMap(xs, row)
    decreases |xs|
  {
    if xs == [] {
      assert head + Map(xs, line) == head;
    } else {
      var init := xs[..|xs| - 1];
      var x := xs[|xs| - 1];
      assert forall i :: 0 <= i < |init| ==> init[i] == xs[i];
      LinesFlatMap(head, init, line, row);
      assert xs == init + [x];
      MapAppend(init, [x], line);
      AppendAssoc(head, Map(init, line), [line(x)]);
      JoinSnoc(head + Map(init, line), line(x), "\n");
      var j := Join(head + Map(init, line), "\n");
      AppendAssoc(j + "\n", line(x), "\n");
      var h := Join(head, "\n") + "\n";
      AppendAssoc(h, FlatMap(init, row), row(x));
      assert FlatMap(xs, row) == FlatMap(init, row) + row(x);
      assert head + Map(xs, line) == head + Map(init, line) + [line(x)];
      assert Join(head + Map(xs, line), "\n") == j + "\n" + line(x);
    }
  }

  lemma TableTextLines(ms: seq<MdMutation>)
    ensures TableText(ms) == Join([""] + TableLineList(ms), "\n") + "\n"
  {
    forall i | 0 <= i < |ms| ensures MutationRow(ms[i]) == MutationLine(ms[i]) + "\n" {
      MutationRowShape(ms[i]);
    }
    LinesFlatMap(["", HeaderRow, SeparatorRow], ms, MutationLine, MutationRow);
    TableHeadLines();
    AppendAssoc([""], [HeaderRow, SeparatorRow], Map(ms, MutationLine));
    assert [""] + [HeaderRow, SeparatorRow] == ["", HeaderRow, SeparatorRow];
    assert [""] + TableLineList(ms) == ["", HeaderRow, SeparatorRow] + Map(ms, MutationLine);
  }

  /** Pipe lines written one per line are exactly what the table reader collects. */
  lemma PipeLineKept(x: string)
    requires PipeLine(x)
    ensures IsTableLine(x) && Strip(x) == x
  {
    StripUnchanged(x);
  }

  lemma PipeLinesKept(lines: seq<string>)
    requires forall i :: 0 <= i < |lines| ==> PipeLine(lines[i])
    ensures Filter(lines, IsTableLine) == lines && Map(lines, Strip) == lines
  {
    forall i | 0 <= i < |lines| ensures IsTableLine(lines[i]) && Strip(lines[i]) == lines[i] {
      PipeLineKept(lines[i]);
    }
    FilterAll(lines, IsTableLine);
    MapIdentity(lines, Strip);
  }

  lemma SplitPipeLines(lines: seq<string>)
    requires forall i :: 0 <= i < |lines| ==> PipeLine(lines[i])
    ensures Split(Join([""] + lines, "\n") + "\n", '\n') == [""] + lines + [""]
  {
    FramedNoBreaks(lines);
    SplitJoin([""] + lines + [""], '\n');
    JoinFramed(lines);
  }

  lemma FramedNoBreaks(lines: seq<string>)
    requires forall i :: 0 <= i < |lines| ==> PipeLine(lines[i])
    ensures forall i :: 0 <= i < |[""] + lines + [""]| ==> '\n' !in ([""] + lines + [""])[i]
  {
    var all := [""] + lines + [""];
    forall i | 0 <= i < |all| ensures '\n' !in all[i] {
      if 1 <= i < |all| - 1 {
        assert all[i] == lines[i - 1];
      }
    }
  }

  lemma JoinFramed(lines: seq<string>)
    ensures Join([""] + lines + [""], "\n") == Join([""] + lines, "\n") + "\n"
  {
    JoinSnoc([""] + lines, "", "\n");
    var j := Join([""] + lines, "\n");
    assert j + "\n" + "" == j + "\n";
  }

  lemma FilterFramed(lines: seq<string>)
    requires Filter(lines, IsTableLine) == lines
    ensures Filter([""] + lines + [""], IsTableLine) == lines
  {
    assert [""] + lines + [""] == [""] + (lines + [""]);
    FilterAppend([""], lines + [""], IsTableLine);
    FilterAppend(lines, [""], IsTableLine);
    assert Filter([""], IsTableLine) == [] by {
      assert !IsTableLine("");
      assert [""][1..] == [];
    }
  }

  lemma TableLinesOfPipeLines(lines: seq<string>)
    requires forall i :: 0 <= i < |lines| ==> PipeLine(lines[i])
    ensures TableLines(Join([""] + lines, "\n") + "\n") == lines
  {
    SplitPipeLines(lines);
    PipeLinesKept(lines);
    FilterFramed(lines);
  }

  lemma RowPipeLine(a: string, b: string, c: string, d: string)
    requires '\n' !in a && '\n' !in b && '\n' !in c && '\n' !in d
    ensures PipeLine(Row4(a, b, c, d))
  {
  }

  lemma HeadPipeLines()
    ensures PipeLine(HeaderRow) && PipeLine(SeparatorRow)
  {
    HeaderRowShape();
    RowPipeLine("Gene", "rsID", "Alleles", "Impact");
  }

  /** The lines the table reader keeps from a written table: header, separator and one line per mutation. */
  lemma TableLinesOfText(ms: seq<MdMutation>)
    requires forall i :: 0 <= i < |ms| ==> CleanMutation(ms[i])
    ensures TableLines(TableText(ms)) == TableLineList(ms)
  {
    var ls := TableLineList(ms);
    HeadPipeLines();
    forall i | 0 <= i < |ls| ensures PipeLine(ls[i]) {
      if i >= 2 {
        var m := ms[i - 2];
        RowPipeLine(m.gene, m.rsid, m.allele1 + "/" + m.allele2, m.effect);
      }
    }
    TableTextLines(ms);
    TableLinesOfPipeLines(ls);
  }

  /** A written table reads back as the column names and one cell list per mutation, in order. */
  lemma MutationTableRoundTrip(ms: seq<MdMutation>)
    requires forall i :: 0 <= i < |ms| ==> CleanMutation(ms[i])
    ensures ParseTable(TableText(ms)) == Some(Table(HeaderCells, Map(ms, MutationCells)))
  {
    TableLinesOfText(ms);
    TableLineListParts(ms);
    HeaderRowCells();
    MutationRowsRoundTrip(ms);
    ParseTableAs(TableText(ms), TableLineList(ms), HeaderCells, Map(ms, MutationCells));
  }

  /** The reader's view of content whose table lines, header cells and row cells are known. */
  lemma ParseTableAs(content: string, lines: seq<string>, header: seq<string>, rows: seq<seq<string>>)
    requires TableLines(content) == lines && |lines| >= 2
    requires RowCells(lines[0]) == header && Map(lines[2..], RowCells) == rows
    ensures ParseTable(content) == Some(Table(header, rows))
  {
  }

  lemma TableLineListParts(ms: seq<MdMutation>)
    ensures |TableLineList(ms)| >= 2
    ensures TableLineList(ms)[0] == HeaderRow && TableLineList(ms)[2..] == Map(ms, MutationLine)
  {
  }

  /** Each written mutation line reads back as the mutation's four cells. */
  lemma MutationRowsRoundTrip(ms: seq<MdMutation>)
    requires forall i :: 0 <= i < |ms| ==> CleanMutation(ms[i])
    ensures Map(Map(ms, MutationLine), RowCells) == Map(ms, MutationCells)
  {
    forall i | 0 <= i < |ms| ensures RowCells(MutationLine(ms[i])) == MutationCells(ms[i]) {
      var m := ms[i];
      RowCellsRoundTrip(m.gene, m.rsid, m.allele1 + "/" + m.allele2, m.effect);
    }
    MapCompose(ms, MutationLine, RowCells, MutationCells);
  }

  /** The section `markdown_to_pdf` cuts out for the table renders as a heading and the table, one row per mutation. */
  lemma MutationsSectionRenders(ms: seq<MdMutation>)
    requires forall i :: 0 <= i < |ms| ==> CleanMutation(ms[i])
    ensures SectionElements(MutationsTitle + "\n" + TableText(ms))
         == [Heading2(MutationsTitle), Spacer(6), TableBlock([HeaderCells] + Map(ms, MutationCells)), Spacer(12)]
  {
    MutationsTitleFacts();
    MutationTableRoundTrip(ms);
    TableSection(MutationsTitle, TableText(ms), Table(HeaderCells, Map(ms, MutationCells)));
  }

  /** A section titled with the table's heading renders as that heading and the table it holds. */
  lemma TableSection(title: string, body: string, t: Table)
    requires '\n' !in title && Contains(title, "Your Genetic Mutations")
    requires ParseTable(body) == Some(t)
    ensures SectionElements(title + "\n" + body) == [Heading2(title), Spacer(6), TableBlock([t.header] + t.rows), Spacer(12)]
  {
    TitledSection(title, body);
  }

  lemma MutationsTitleFacts()
    ensures '\n' !in MutationsTitle && Contains(MutationsTitle, "Your Genetic Mutations")
  {
    assert OccursAt(MutationsTitle, "Your Genetic Mutations", 0);
  }

  /** A section whose first line is `title` has `title` as its heading and the rest as its content. */
  lemma TitledSection(title: string, body: string)
    requires '\n' !in title
    ensures Split(title + "\n" + body, '\n')[0] == title
    ensures Join(Split(title + "\n" + body, '\n')[1..], "\n") == body
  {
    SplitCons(title, '\n', body);
    JoinSplit(body, '\n');
  }
  // ---------------------------------------------------------------------------
  // Lists, bold and the side-file path
  // ---------------------------------------------------------------------------

  /** The text of an ingredient line after its "- " marker. */
  function PrioritizeText(b: Beneficial): string {
    "**" + b.ingredientName + "**: " + b.benefitMechanism
  }

  function CautionText(c: Caution): string {
    "**" + c.ingredientName + "**: " + c.riskMechanism
  }

  lemma LineBreakMarker()
    ensures "\n" + "- " == "\n- "
  {
  }

  lemma BulletStep(j: string, t: string)
    ensures ("- " + j + "\n") + ("- " + t + "\n") == "- " + (j + "\n- " + t) + "\n"
  {
    var a, n, m := "- ", "\n", "\n- ";
    LineBreakMarker();
    AppendAssoc(a + j, n, (a + t) + n);
    AppendAssoc(n, a + t, n);
    AppendAssoc(n, a, t);
    AppendAssoc(j, m, t);
    AppendAssoc(a, j, m + t);
    AppendAssoc(a + j, m + t, n);
  }

  /** Lines of the form "- text\n", one per item, are a list paragraph whose items are the texts. */
  lemma {:induction false} BulletLines<A>(xs: seq<A>, line: A -> string, text: A -> string)
    requires |xs| >= 1
    requires forall i :: 0 <= i < |xs| ==> line(xs[i]) == "- " + text(xs[i]) + "\n"
    ensures FlatMap(xs, line) == "- " + Join(Map(xs, text), "\n- ") + "\n"
    decreases |xs|
  {
    var init := xs[..|xs| - 1];
    var x := xs[|xs| - 1];
    if |xs| == 1 {
      assert init == [];
      assert FlatMap(xs, line) == line(x);
      assert Map(xs, text) == [text(x)];
      assert Join([text(x)], "\n- ") == text(x);
      assert line(x) == "- " + text(x) + "\n";
    } else {
      assert forall i :: 0 <= i < |init| ==> init[i] == xs[i];
      BulletLines(init, line, text);
      assert xs == init + [x];
      MapAppend(init, [x], text);
      assert Map([x], text) == [text(x)];
      assert Map(xs, text) == Map(init, text) + [text(x)];
      assert line(x) == "- " + text(x) + "\n";
      assert FlatMap(xs, line) == FlatMap(init, line) + line(x);
      JoinSnoc(Map(init, text), text(x), "\n- ");
      BulletStep(Join(Map(init, text), "\n- "), text(x));
    }
  }

  lemma PrioritizeLineShape(b: Beneficial)
    ensures PrioritizeLine(b) == "- " + PrioritizeText(b) + "\n"
  {
  }

  lemma CautionLineShape(c: Caution)
    ensures CautionLine(c) == "- " + CautionText(c) + "\n"
  {
  }

  /** The recommended ingredients are written as one list paragraph, one item per kept ingredient. */
  lemma PrioritizeList(xs: seq<Beneficial>)
    requires |xs| >= 1
    ensures FlatMap(xs, PrioritizeLine) == "- " + Join(Map(xs, PrioritizeText), "\n- ") + "\n"
  {
    forall i | 0 <= i < |xs| ensures PrioritizeLine(xs[i]) == "- " + PrioritizeText(xs[i]) + "\n" {
      PrioritizeLineShape(xs[i]);
    }
    BulletLines(xs, PrioritizeLine, PrioritizeText);
  }

  lemma CautionList(xs: seq<Caution>)
    requires |xs| >= 1
    ensures FlatMap(xs, CautionLine) == "- " + Join(Map(xs, CautionText), "\n- ") + "\n"
  {
    forall i | 0 <= i < |xs| ensures CautionLine(xs[i]) == "- " + CautionText(xs[i]) + "\n" {
      CautionLineShape(xs[i]);
    }
    BulletLines(xs, CautionLine, CautionText);
  }

  /** Prefixing the first piece prefixes the joined text. */
  lemma JoinPrefixFirst(parts: seq<string>, p: string, sep: string)
    requires |parts| >= 1
    ensures Join([p + parts[0]] + parts[1..], sep) == p + Join(parts, sep)
  {
    var q := [p + parts[0]] + parts[1..];
    assert q[1..] == parts[1..];
    if |parts| > 1 {
      AppendAssoc(p, parts[0], sep + Join(parts[1..], sep));
    }
  }

  /** Splitting a list paragraph on "\n- " as the source does keeps the first item's marker. */
  lemma FirstItemKeepsMarker(items: seq<string>)
    requires |items| >= 1
    requires forall i :: 0 <= i < |items| ==> '\n' !in items[i]
    ensures ListItemsAsWritten("- " + Join(items, "\n- ")) == ["- " + items[0]] + items[1..]
  {
    var q := ["- " + items[0]] + items[1..];
    JoinPrefixFirst(items, "- ", "\n- ");
    forall i | 0 <= i < |q| ensures "\n- "[0] !in q[i] {
      if i > 0 {
        assert q[i] == items[i];
      }
    }
    SplitOnJoin(q, "\n- ");
  }

  /** An item whose first `**` pair surrounds `name` renders as a bullet with `name` in bold. */
  lemma ItemBold(pre: string, name: string, rest: string)
    requires '*' !in pre && '*' !in name
    requires pre == [] || !IsSpace(pre[0])
    requires rest == [] || !IsSpace(rest[|rest| - 1])
    ensures ItemElements(pre + "**" + name + "**" + rest)
         == [ListItem(Bullet + (pre + "<b>" + name + "</b>" + rest)), Spacer(4)]
  {
    var item := pre + "**" + name + "**" + rest;
    assert item[|pre|] == '*';
    StripNonEmpty(item, |pre|);
    BoldFirstPair(pre, name, rest);
    BoldedEnds(pre, name, rest);
    StripUnchanged(pre + "<b>" + name + "</b>" + rest);
  }

  /** The bolded text starts with `pre` or `<` and ends with `rest` or `>`, so neither end is white space. */
  lemma BoldedEnds(pre: string, name: string, rest: string)
    requires pre == [] || !IsSpace(pre[0])
    requires rest == [] || !IsSpace(rest[|rest| - 1])
    ensures var shown := pre + "<b>" + name + "</b>" + rest;
            shown != [] && !IsSpace(shown[0]) && !IsSpace(shown[|shown| - 1])
  {
    var shown := pre + "<b>" + name + "</b>" + rest;
    assert !IsSpace('<') && !IsSpace('>');
    assert shown[0] == (if pre == [] then '<' else pre[0]);
    assert shown[|shown| - 1] == (if rest == [] then '>' else rest[|rest| - 1]);
  }

  lemma BoldItemText(pre: string, name: string, rest: string)
    ensures pre + ("**" + name + "**" + rest) == pre + "**" + name + "**" + rest
  {
    AppendAssoc(pre + "**" + name, "**", rest);
    AppendAssoc(pre + "**", name, "**" + rest);
    AppendAssoc(pre, "**", name + ("**" + rest));
    AppendAssoc(name, "**", rest);
    AppendAssoc("**", name, "**" + rest);
    AppendAssoc("**" + name, "**", rest);
  }

  /** A one-item list paragraph, as the source renders it: the item keeps its "- " marker after the bullet. */
  lemma SingleItemAsWritten(name: string, rest: string)
    requires '*' !in name && '\n' !in name && '\n' !in rest
    requires rest == [] || !IsSpace(rest[|rest| - 1])
    ensures ParagraphElementsAsWritten("- " + ("**" + name + "**" + rest))
         == [ListItem(Bullet + ("- " + "<b>" + name + "</b>" + rest)), Spacer(4)]
  {
    var item := "**" + name + "**" + rest;
    assert Join([item], "\n- ") == item;
    ListParagraphAsWritten([item]);
    assert ["- " + item] + [item][1..] == ["- " + item];
    FlatMapSingle("- " + item, ItemElements);
    MarkedItemRenders(name, rest);
  }

  lemma MarkedItemRenders(name: string, rest: string)
    requires '*' !in name
    requires rest == [] || !IsSpace(rest[|rest| - 1])
    ensures ItemElements("- " + ("**" + name + "**" + rest))
         == [ListItem(Bullet + ("- " + "<b>" + name + "</b>" + rest)), Spacer(4)]
  {
    BoldItemText("- ", name, rest);
    ItemBold("- ", name, rest);
  }

  /** The same paragraph under the corrected split: the bullet is followed by the bold name. */
  lemma SingleItemCorrected(name: string, rest: string)
    requires '*' !in name && '\n' !in name && '\n' !in rest
    requires rest == [] || !IsSpace(rest[|rest| - 1])
    ensures ParagraphElements("- " + ("**" + name + "**" + rest))
         == [ListItem(Bullet + ("<b>" + name + "</b>" + rest)), Spacer(4)]
  {
    var item := "**" + name + "**" + rest;
    assert Join([item], "\n- ") == item;
    ListParagraphRenders([item]);
    FlatMapSingle(item, ItemElements);
    ItemBold("", name, rest);
    EmptyLeft("**");
    EmptyLeft("<b>");
  }

  /** Paragraphs starting with "- " and no other heading take the list branch. */
  lemma ListParagraphShape(item: string)
    ensures Strip("- " + item) != "" && !StartsWith("- " + item, "### ") && StartsWith("- " + item, "- ")
  {
    var p := "- " + item;
    assert p[..2] == "- ";
    assert p[0] == '-' && p[1] == ' ';
    assert TrimLeft(p) == p;
  }

  /** The corrected split gives back exactly the items that were joined. */
  lemma ListItemsRoundTrip(items: seq<string>)
    requires |items| >= 1
    requires forall i :: 0 <= i < |items| ==> '\n' !in items[i]
    ensures ListItems("- " + Join(items, "\n- ")) == items
  {
    var p := "- " + Join(items, "\n- ");
    assert p[2..] == Join(items, "\n- ");
    SplitOnJoin(items, "\n- ");
  }

  /** A list paragraph renders one bullet item per joined item. */
  lemma ListParagraphRenders(items: seq<string>)
    requires |items| >= 1
    requires forall i :: 0 <= i < |items| ==> '\n' !in items[i]
    ensures ParagraphElements("- " + Join(items, "\n- ")) == FlatMap(items, ItemElements)
  {
    ListParagraphShape(Join(items, "\n- "));
    ListItemsRoundTrip(items);
  }

  /** As written, the list paragraph renders its first item with the marker still attached. */
  lemma ListParagraphAsWritten(items: seq<string>)
    requires |items| >= 1
    requires forall i :: 0 <= i < |items| ==> '\n' !in items[i]
    ensures ParagraphElementsAsWritten("- " + Join(items, "\n- "))
         == FlatMap(["- " + items[0]] + items[1..], ItemElements)
  {
    ListParagraphShape(Join(items, "\n- "));
    FirstItemKeepsMarker(items);
  }

  /** `s.replace(pat, rep, 1)` at a known first occurrence. */
  lemma ReplaceFirstAt(pre: string, pat: string, post: string, rep: string)
    requires Find(pre + pat + post, pat) == |pre|
    ensures ReplaceFirst(pre + pat + post, pat, rep) == pre + rep + post
  {
    var s := pre + pat + post;
    assert s[..|pre|] == pre;
    assert s[|pre| + |pat|..] == post;
  }

  /** Only the first `**` pair of an item becomes bold tags. */
  lemma BoldFirstPair(pre: string, name: string, rest: string)
    requires '*' !in pre && '*' !in name
    ensures Bold(pre + "**" + name + "**" + rest) == pre + "<b>" + name + "</b>" + rest
  {
    var tail := name + "**" + rest;
    AppendAssoc(pre + "**", name, "**");
    AppendAssoc(pre + "**" + name, "**", rest);
    AppendAssoc(pre + "**", name, "**" + rest);
    AppendAssoc(name, "**", rest);
    assert pre + "**" + name + "**" + rest == pre + "**" + tail;
    FindAfterFree(pre, "**", tail);
    ReplaceFirstAt(pre, "**", tail, "<b>");
    var open := pre + "<b>" + name;
    AppendAssoc(pre + "<b>", name, "**" + rest);
    AppendAssoc(open, "**", rest);
    assert pre + "<b>" + tail == open + "**" + rest;
    assert '*' !in open;
    FindAfterFree(open, "**", rest);
    ReplaceFirstAt(open, "**", rest, "</b>");
  }

  /** `s.replace(pat, rep)` at a known first occurrence. */
  lemma ReplaceAllAt(pre: string, pat: string, post: string, rep: string)
    requires |pat| > 0 && Find(pre + pat + post, pat) == |pre|
    ensures ReplaceAll(pre + pat + post, pat, rep) == pre + rep + ReplaceAll(post, pat, rep)
  {
    var s := pre + pat + post;
    assert s[..|pre|] == pre;
    assert s[|pre| + |pat|..] == post;
  }

  /** A path ending in its only ".pdf" gets its markdown text beside it under ".md". */
  lemma SidePathOfPdf(stem: string)
    requires '.' !in stem
    ensures SidePath(stem + ".pdf") == Some(stem + ".md")
  {
    FindAfterFree(stem, ".pdf", "");
    assert stem + ".pdf" + "" == stem + ".pdf";
    ReplaceAllAt(stem, ".pdf", "", ".md");
    assert ReplaceAll("", ".pdf", ".md") == "";
    assert stem + ".md" + "" == stem + ".md";
  }

  /** An empty output path writes no side file. */
  lemma SidePathEmpty()
    ensures SidePath("") == None
  {
  }

  /** The characteristics section is written exactly when some mutation has characteristics, and then it opens with its heading. */
  lemma CharacteristicsSectionPresence(ms: seq<MdMutation>)
    ensures CharacteristicsSection(ms) != "" <==> AnyCharacteristics(ms)
    ensures AnyCharacteristics(ms) ==> StartsWith(CharacteristicsSection(ms), CharacteristicsHeading)
  {
    if AnyCharacteristics(ms) {
      var c := CharacteristicsSection(ms);
      var rest := "\n" + FlatMap(ms, CharacteristicBlock);
      AppendAssoc(CharacteristicsHeading, "\n", FlatMap(ms, CharacteristicBlock));
      assert c == CharacteristicsHeading + rest;
      PrefixStarts(CharacteristicsHeading, rest);
    }
  }

  lemma PrefixStarts(a: string, b: string)
    ensures StartsWith(a + b, a)
  {
    assert (a + b)[..|a|] == a;
  }

  /** Deduplicating the ingredient lists beforehand does not change the text. */
  lemma IngredientsSectionDedupStable(prioritize: seq<Beneficial>, caution: seq<Caution>)
    ensures IngredientsSection(Dedup.Dedup(prioritize, BeneficialName), Dedup.Dedup(caution, CautionName))
         == IngredientsSection(prioritize, caution)
  {
    Dedup.DedupIdempotent(prioritize, BeneficialName);
    Dedup.DedupIdempotent(caution, CautionName);
  }
}
