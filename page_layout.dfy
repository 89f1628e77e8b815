/** The single A4 page the standardized PDF generator lays out, as the sequence of
    draw calls it makes, and a reference definition of that sequence: a fixed table
    of gated blocks walked by a vertical cursor that only moves down. */
module PageLayout {
  import opened Wrappers
  import opened JsText
  import opened TextWrap
  import opened LessonPlanDataVo

  /** A4 at 72 points per inch. */
  const PageWidth: real := 595.28
  const PageHeight: real := 841.89

  datatype Font = Regular | Bold

  /** One call on the page; colours are not recorded. */
  datatype Command =
    | Text(text: string, x: real, y: real, size: real, font: Font)
    | Rectangle(x: real, y: real, width: real, height: real)
    | Line(startX: real, startY: real, endX: real, endY: real, thickness: real)

  /** The page as a recorder of the draw calls made on it, in call order. */
  class Page {
    var commands: seq<Command>

    constructor ()
      ensures commands == []
    {
      commands := [];
    }

    method DrawText(text: string, x: real, y: real, size: real, font: Font)
      modifies this
      ensures commands == old(commands) + [Text(text, x, y, size, font)]
    {
      commands := commands + [Text(text, x, y, size, font)];
    }

    method DrawRectangle(x: real, y: real, width: real, height: real)
      modifies this
      ensures commands == old(commands) + [Rectangle(x, y, width, height)]
    {
      commands := commands + [Rectangle(x, y, width, height)];
    }

    method DrawLine(startX: real, startY: real, endX: real, endY: real, thickness: real)
      modifies this
      ensures commands == old(commands) + [Line(startX, startY, endX, endY, thickness)]
    {
      commands := commands + [Line(startX, startY, endX, endY, thickness)];
    }
  }

  // ---------------------------------------------------------------------------
  // Fixed parts of the page

  const Banner := "PLANO DE AULA PADRONIZADO"

  /** Where the cursor starts. */
  const Top: real := PageHeight - 60.0
  /** Where the document title is drawn. */
  const TitleY: real := Top - 80.0
  /** Where the cursor stands once the title is drawn. */
  const FlowTop: real := TitleY - 30.0
  /** List lines are drawn only while the cursor is at least this high. */
  const ListFloor: real := 80.0

  function FooterCaption(date: string): string {
    "Gerado em: " + date + " - Sistema de Planos de Aula"
  }

  /** The banner, its caption and the document title. */
  function Header(title: string): seq<Command> {
    [ Rectangle(0.0, Top - 10.0, PageWidth, 60.0),
      Text(Banner, 50.0, Top + 10.0, 24.0, Bold),
      Text(title, 50.0, TitleY, 18.0, Bold) ]
  }

  /** The divider and the caption, at fixed coordinates below the cursor-driven content. */
  function Footer(date: string): seq<Command> {
    [ Line(50.0, 60.0, PageWidth - 50.0, 60.0, 1.0),
      Text(FooterCaption(date), 50.0, 40.0, 8.0, Regular) ]
  }

  // ---------------------------------------------------------------------------
  // Blocks

  function Min(a: int, b: int): int {
    if a <= b then a else b
  }

  /** What a block leaves: the commands it drew and where the cursor ends. */
  datatype Flowed = Flowed(cmds: seq<Command>, y: real)

  /** Regular 10-point lines, 15 apart, going down from `y`. */
  function Column(lines: seq<string>, x: real, y: real): (r: seq<Command>)
    ensures |r| == |lines|
  {
    if lines == [] then []
    else [Text(lines[0], x, y, 10.0, Regular)] + Column(lines[1..], x, y - 15.0)
  }

  /** The body lines a section shows: the first two of its 80-character wrap. */
  function SectionLines(body: string): seq<string> {
    var lines := Wrap(body, 80);
    lines[..Min(2, |lines|)]
  }

  /** A heading, `headingDrop` above the body lines, then a 10-point gap. */
  function RenderParagraph(heading: string, body: string, headingDrop: real, y: real): Flowed {
    var lines := SectionLines(body);
    Flowed([Text(heading, 50.0, y, 12.0, Bold)] + Column(lines, 50.0, y - headingDrop),
           y - headingDrop - 15.0 * (|lines| as real) - 10.0)
  }

  /** The number a string of decimal digits denotes. */
  function DigitsValue(s: string): int {
    if s == [] then 0 else DigitsValue(s[..|s| - 1]) * 10 + (s[|s| - 1] as int - '0' as int)
  }

  /** `${n}` for a natural number: decimal digits without a leading zero, reading back as `n`. */
  function DecimalString(n: nat): (r: string)
    ensures r != []
    ensures forall i :: 0 <= i < |r| ==> '0' <= r[i] <= '9'
    ensures DigitsValue(r) == n
    ensures r[0] == '0' <==> n == 0
  {
    if n < 10 then [('0' as int + n) as char]
    else DecimalString(n / 10) + DecimalString(n % 10)
  }

  /** `${index + 1}. ${item}`. */
  function Numbered(index: nat, item: string): string {
    DecimalString(index + 1) + ". " + item
  }

  /** The 75-character wraps of the numbered items, item after item. */
  function ItemLines(items: seq<string>): seq<string> {
    if items == [] then []
    else ItemLines(items[..|items| - 1]) + Wrap(Numbered(|items| - 1, items[|items| - 1]), 75)
  }

  /** The lines a numbered list offers: those of its first three items. */
  function ListLines(items: seq<string>): seq<string> {
    ItemLines(items[..Min(3, |items|)])
  }

  /** The list lines drawn from `y` down, with one check per line: a line is skipped,
      and the cursor stays where it is, while the cursor is below the floor. */
  function Guarded(lines: seq<string>, y: real): Flowed {
    if lines == [] then Flowed([], y)
    else if y < ListFloor then Guarded(lines[1..], y)
    else
      var rest := Guarded(lines[1..], y - 15.0);
      Flowed([Text(lines[0], 60.0, y, 10.0, Regular)] + rest.cmds, rest.y)
  }

  /** A 14-point heading, the guarded list lines 20 below it, then a 10-point gap. */
  function RenderList(heading: string, items: seq<string>, y: real): Flowed {
    var body := Guarded(ListLines(items), y - 20.0);
    Flowed([Text(heading, 50.0, y, 14.0, Bold)] + body.cmds, body.y - 10.0)
  }

  // ---------------------------------------------------------------------------
  // The flow: a table of gated blocks

  datatype Block =
    | Paragraph(heading: string, body: string, headingDrop: real)
    | NumberedList(heading: string, items: seq<string>)

  /** A block with no gate is drawn whenever it has content; a gated one only while
      the cursor is strictly above the limit. */
  datatype Gate = Always | Above(limit: real)

  datatype Entry = Entry(block: Block, gate: Gate)

  predicate Present(b: Block) {
    match b
    case Paragraph(_, body, _) => body != ""
    case NumberedList(_, items) => |items| > 0
  }

  predicate Opens(g: Gate, y: real) {
    g.Always? || y > g.limit
  }

  predicate Shown(e: Entry, y: real) {
    Present(e.block) && Opens(e.gate, y)
  }

  function Render(b: Block, y: real): Flowed {
    match b
    case Paragraph(heading, body, drop) => RenderParagraph(heading, body, drop, y)
    case NumberedList(heading, items) => RenderList(heading, items, y)
  }

  function Place(e: Entry, y: real): Flowed {
    if Shown(e, y) then Render(e.block, y) else Flowed([], y)
  }

  /** The entries placed one after the other, each at the cursor the previous one left. */
  function Flow(es: seq<Entry>, y: real): Flowed {
    if es == [] then Flowed([], y)
    else
      var first := Place(es[0], y);
      var rest := Flow(es[1..], first.y);
      Flowed(first.cmds + rest.cmds, rest.y)
  }

  /** The description section, drawn with or without lesson-plan data. */
  function DescriptionEntry(description: Option<string>): Entry {
    Entry(Paragraph("Descrição:", OrEmpty(description), 20.0), Always)
  }

  /** The lesson-plan sections in their fixed order, with their gates. */
  function FieldEntries(d: LessonPlanData): seq<Entry> {
    [ Entry(Paragraph("Disciplina:", OrEmpty(d.GetSubject()), 18.0), Always),
      Entry(Paragraph("Público-Alvo:", OrEmpty(d.GetTargetAudience()), 18.0), Always),
      Entry(Paragraph("Duração:", OrEmpty(d.GetDuration()), 18.0), Always),
      Entry(NumberedList("Objetivos:", d.GetObjectives()), Always),
      Entry(NumberedList("Atividades:", d.GetActivities()), Above(150.0)),
      Entry(Paragraph("Recursos:", OrEmpty(d.GetResources()), 18.0), Above(100.0)),
      Entry(Paragraph("Avaliação:", OrEmpty(d.GetEvaluation()), 18.0), Above(100.0)) ]
  }

  /** Every section of the page in order; the field sections exist only when the
      document has lesson-plan data. */
  function Entries(description: Option<string>, data: Option<LessonPlanData>): seq<Entry> {
    [DescriptionEntry(description)] +
    match data
    case None => []
    case Some(d) => FieldEntries(d)
  }

  /** The whole page: header, the flow below the title, footer. */
  function Layout(title: string, description: Option<string>, data: Option<LessonPlanData>,
                  date: string): seq<Command> {
    Header(title) + Flow(Entries(description, data), FlowTop).cmds + Footer(date)
  }
}
