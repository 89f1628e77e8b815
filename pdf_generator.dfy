/** `StandardizedPDFGenerator`: draws the lesson plan on one A4 page, call after
    call, moving a vertical cursor down, then writes the page to a file. */
module StandardizedPdf {
  import opened Wrappers
  import opened JsText
  import opened TextWrap
  import opened LessonPlanDataVo
  import opened DocumentEntity
  import opened PageLayout
  import opened LayoutProperties

  /** The files written so far, each as the draw calls of its page. */
  class Disk {
    var files: map<string, seq<Command>>

    constructor ()
      ensures files == map[]
    {
      files := map[];
    }
  }

  class StandardizedPdfGenerator {

    constructor ()
    {
    }

    /** `generate`: lays out the document's page and writes it to `outputPath`.
        `date` is today's date as `toLocaleDateString('pt-BR')` prints it; `generationFails`
        says whether drawing on the page or writing the file throws (the standard fonts
        cannot encode a character outside WinAnsi, such as `→` or an emoji, and creating
        the directory or writing the file can fail), in which case no page is stored. */
    method Generate(document: Document, outputPath: string, disk: Disk, date: string, generationFails: bool)
      returns (r: Outcome<Error>)
      modifies disk
      ensures r.Pass? <==> !generationFails
      ensures r.Fail? ==> r.error == GenerationError && disk.files == old(disk.files)
      ensures r.Pass? ==> disk.files == old(disk.files)[outputPath :=
        Layout(document.props.title, document.props.description, document.props.lessonPlanData, date)]
    {
      var page := new Page();
      DrawPage(page, document.props.title, document.props.description, document.props.lessonPlanData, date);
      if generationFails {
        return Fail(GenerationError);
      }
      disk.files := disk.files[outputPath := page.commands];
      r := Pass;
    }

    /** The whole page on a blank one: header, the sections, footer. */
    method DrawPage(page: Page, title: string, description: Option<string>, data: Option<LessonPlanData>, date: string)
      requires page.commands == []
      modifies page
      ensures page.commands == Layout(title, description, data, date)
    {
      var y := DrawHeader(page, title);
      y := DrawSections(page, description, data, y);
      page.DrawLine(50.0, 60.0, PageWidth - 50.0, 60.0, 1.0);
      page.DrawText(FooterCaption(date), 50.0, 40.0, 8.0, Regular);
      AppendAssoc(Header(title) + Flow(Entries(description, data), FlowTop).cmds,
                  [Line(50.0, 60.0, PageWidth - 50.0, 60.0, 1.0)], [Text(FooterCaption(date), 50.0, 40.0, 8.0, Regular)]);
    }

    /** The banner rectangle, its caption and the title; the cursor ends 30 below the title. */
    method DrawHeader(page: Page, title: string) returns (y: real)
      requires page.commands == []
      modifies page
      ensures page.commands == Header(title)
      ensures y == FlowTop
    {
      y := PageHeight - 60.0;
      page.DrawRectangle(0.0, y - 10.0, PageWidth, 60.0);
      page.DrawText(Banner, 50.0, y + 10.0, 24.0, Bold);
      y := y - 80.0;
      page.DrawText(title, 50.0, y, 18.0, Bold);
      y := y - 30.0;
    }

    /** The description, then the lesson-plan sections when there is data. */
    method DrawSections(page: Page, description: Option<string>, data: Option<LessonPlanData>, y: real)
      returns (next: real)
      modifies page
      ensures page.commands == old(page.commands) + Flow(Entries(description, data), y).cmds
      ensures next == Flow(Entries(description, data), y).y
    {
      ghost var first := Place(DescriptionEntry(description), y);
      next := DrawDescription(page, description, y);
      FlowOne(DescriptionEntry(description), y);
      if data.Some? {
        next := DrawLessonPlan(page, data.value, next);
        FlowAppend([DescriptionEntry(description)], FieldEntries(data.value), y);
        AppendAssoc(old(page.commands), first.cmds, Flow(FieldEntries(data.value), first.y).cmds);
      } else {
        assert Entries(description, data) == [DescriptionEntry(description)];
      }
    }

    /** The description section, with its heading 20 points above the body, whenever
        the description is set. */
    method DrawDescription(page: Page, description: Option<string>, y: real) returns (next: real)
      modifies page
      ensures page.commands == old(page.commands) + Place(DescriptionEntry(description), y).cmds
      ensures next == Place(DescriptionEntry(description), y).y
    {
      next := y;
      if Truthy(description) {
        page.DrawText("Descrição:", 50.0, next, 12.0, Bold);
        next := next - 20.0;
        var descLines := WrapText(OrEmpty(description), 80);
        next := DrawLines(page, descLines[..Min(2, |descLines|)], 50.0, next);
        AppendAssoc(old(page.commands), [Text("Descrição:", 50.0, y, 12.0, Bold)],
                    Column(SectionLines(OrEmpty(description)), 50.0, y - 20.0));
        next := next - 10.0;
      } else {
        AppendEmpty(page.commands);
      }
    }

    /** The lesson-plan sections in order: each is drawn when it has content and,
        for the last three, only while the cursor is above their limit. */
    method DrawLessonPlan(page: Page, data: LessonPlanData, y: real) returns (next: real)
      modifies page
      ensures page.commands == old(page.commands) + Flow(FieldEntries(data), y).cmds
      ensures next == Flow(FieldEntries(data), y).y
    {
      ghost var es := FieldEntries(data);
      ghost var base := page.commands;
      assert es[0..] == es;
      AppendEmpty(base);
      next := DrawDetails(page, base, es, y, data, y);
      next := DrawLists(page, base, es, y, data, next);
      next := DrawClosing(page, base, es, y, data, next);
      assert es[7..] == [];
      AppendEmpty(page.commands);
    }

    /** Subject, target audience and duration: each drawn whenever it is set. */
    method DrawDetails(page: Page, ghost base: seq<Command>, ghost es: seq<Entry>, ghost y0: real,
                       data: LessonPlanData, y: real) returns (next: real)
      requires |es| == 7 && es[0] == FieldEntries(data)[0] && es[1] == FieldEntries(data)[1] && es[2] == FieldEntries(data)[2] && Drawn(base, es, y0, page.commands, 0, y)
      modifies page
      ensures Drawn(base, es, y0, page.commands, 3, next)
    {
      next := DrawSectionIf(page, base, es, 0, y0, Truthy(data.GetSubject()), "Disciplina:", OrEmpty(data.GetSubject()), y);
      next := DrawSectionIf(page, base, es, 1, y0, Truthy(data.GetTargetAudience()), "Público-Alvo:", OrEmpty(data.GetTargetAudience()), next);
      next := DrawSectionIf(page, base, es, 2, y0, Truthy(data.GetDuration()), "Duração:", OrEmpty(data.GetDuration()), next);
    }

    /** Objectives whenever there are any; activities only while the cursor is above 150. */
    method DrawLists(page: Page, ghost base: seq<Command>, ghost es: seq<Entry>, ghost y0: real,
                     data: LessonPlanData, y: real) returns (next: real)
      requires |es| == 7 && es[3] == FieldEntries(data)[3] && es[4] == FieldEntries(data)[4] && Drawn(base, es, y0, page.commands, 3, y)
      modifies page
      ensures Drawn(base, es, y0, page.commands, 5, next)
    {
      var objectives := data.GetObjectives();
      next := DrawListIf(page, base, es, 3, y0, |objectives| > 0, "Objetivos:", objectives, y);
      var activities := data.GetActivities();
      next := DrawListIf(page, base, es, 4, y0, |activities| > 0 && next > 150.0, "Atividades:", activities, next);
    }

    /** Resources and evaluation, each only while the cursor is above 100. */
    method DrawClosing(page: Page, ghost base: seq<Command>, ghost es: seq<Entry>, ghost y0: real,
                       data: LessonPlanData, y: real) returns (next: real)
      requires |es| == 7 && es[5] == FieldEntries(data)[5] && es[6] == FieldEntries(data)[6] && Drawn(base, es, y0, page.commands, 5, y)
      modifies page
      ensures Drawn(base, es, y0, page.commands, 7, next)
    {
      next := DrawSectionIf(page, base, es, 5, y0, Truthy(data.GetResources()) && y > 100.0, "Recursos:", OrEmpty(data.GetResources()), y);
      next := DrawSectionIf(page, base, es, 6, y0, Truthy(data.GetEvaluation()) && next > 100.0, "Avaliação:", OrEmpty(data.GetEvaluation()), next);
    }

    /** `if (shown) y = this.addSection(...)`, as entry `k` of the flow `es`. */
    method DrawSectionIf(page: Page, ghost base: seq<Command>, ghost es: seq<Entry>, ghost k: nat, ghost y0: real,
                         shown: bool, title: string, content: string, y: real)
      returns (next: real)
      requires k < |es| && es[k].block == Paragraph(title, content, 18.0) && shown == Shown(es[k], y)
      requires Drawn(base, es, y0, page.commands, k, y)
      modifies page
      ensures Drawn(base, es, y0, page.commands, k + 1, next)
    {
      FlowStep(base, es, k, y0, page.commands, y);
      next := y;
      if shown {
        next := AddSection(page, title, content, y);
      } else {
        AppendEmpty(page.commands);
      }
    }

    /** `if (shown) { ...numbered list... }`, as entry `k` of the flow `es`. */
    method DrawListIf(page: Page, ghost base: seq<Command>, ghost es: seq<Entry>, ghost k: nat, ghost y0: real,
                      shown: bool, heading: string, items: seq<string>, y: real)
      returns (next: real)
      requires k < |es| && es[k].block == NumberedList(heading, items) && shown == Shown(es[k], y)
      requires Drawn(base, es, y0, page.commands, k, y)
      modifies page
      ensures Drawn(base, es, y0, page.commands, k + 1, next)
    {
      FlowStep(base, es, k, y0, page.commands, y);
      next := y;
      if shown {
        next := DrawNumberedList(page, heading, items, y);
      } else {
        AppendEmpty(page.commands);
      }
    }

    /** `addSection`: a 12-point heading, the first two lines of the 80-character wrap
        of `content` 18 points below it, then a 10-point gap; returns the new cursor. */
    method AddSection(page: Page, title: string, content: string, y: real) returns (next: real)
      modifies page
      ensures page.commands == old(page.commands) + RenderParagraph(title, content, 18.0, y).cmds
      ensures next == RenderParagraph(title, content, 18.0, y).y
    {
      page.DrawText(title, 50.0, y, 12.0, Bold);
      var lines := WrapText(content, 80);
      var cursor := DrawLines(page, lines[..Min(2, |lines|)], 50.0, y - 18.0);
      AppendAssoc(old(page.commands), [Text(title, 50.0, y, 12.0, Bold)], Column(SectionLines(content), 50.0, y - 18.0));
      next := cursor - 10.0;
    }

    /** The body loop of a section: each line in regular 10 point at the cursor,
        which then drops by 15. */
    method DrawLines(page: Page, lines: seq<string>, x: real, y: real) returns (cursor: real)
      modifies page
      ensures page.commands == old(page.commands) + Column(lines, x, y)
      ensures cursor == y - 15.0 * (|lines| as real)
    {
      cursor := y;
      var i := 0;
      while i < |lines|
        invariant 0 <= i <= |lines|
        invariant old(page.commands) + Column(lines, x, y) == page.commands + Column(lines[i..], x, cursor)
        invariant cursor == y - 15.0 * (i as real)
      {
        assert lines[i..][0] == lines[i] && lines[i..][1..] == lines[i + 1..];
        AppendAssoc(page.commands, [Text(lines[i], x, cursor, 10.0, Regular)], Column(lines[i + 1..], x, cursor - 15.0));
        page.DrawText(lines[i], x, cursor, 10.0, Regular);
        cursor := cursor - 15.0;
        i := i + 1;
      }
      AppendEmpty(page.commands);
    }

    /** The objectives and activities blocks: a 14-point heading, then for each of the
        first three items the 75-character wrap of `${index + 1}. ${item}`, each line
        drawn only while the cursor is not below 80; then a 10-point gap. */
    method DrawNumberedList(page: Page, heading: string, items: seq<string>, y: real) returns (next: real)
      modifies page
      ensures page.commands == old(page.commands) + RenderList(heading, items, y).cmds
      ensures next == RenderList(heading, items, y).y
    {
      page.DrawText(heading, 50.0, y, 14.0, Bold);
      ghost var start := page.commands;
      var cursor := y - 20.0;
      var shown := items[..Min(3, |items|)];
      var index := 0;
      while index < |shown|
        invariant 0 <= index <= |shown|
        invariant page.commands == start + Guarded(ItemLines(shown[..index]), y - 20.0).cmds
        invariant cursor == Guarded(ItemLines(shown[..index]), y - 20.0).y
      {
        ghost var done := Guarded(ItemLines(shown[..index]), y - 20.0);
        var lines := WrapText(Numbered(index, shown[index]), 75);
        cursor := DrawGuardedLines(page, lines, cursor);
        ItemLinesSnoc(shown, index);
        GuardedAppend(ItemLines(shown[..index]), lines, y - 20.0);
        AppendAssoc(start, done.cmds, Guarded(lines, done.y).cmds);
        index := index + 1;
      }
      assert shown[..index] == shown;
      AppendAssoc(old(page.commands), [Text(heading, 50.0, y, 14.0, Bold)], Guarded(ListLines(items), y - 20.0).cmds);
      next := cursor - 10.0;
    }

    /** The lines of one item: each is drawn, and the cursor dropped by 15, only
        while the cursor is not below 80. */
    method DrawGuardedLines(page: Page, lines: seq<string>, y: real) returns (cursor: real)
      modifies page
      ensures page.commands == old(page.commands) + Guarded(lines, y).cmds
      ensures cursor == Guarded(lines, y).y
    {
      cursor := y;
      var j := 0;
      while j < |lines|
        invariant 0 <= j <= |lines|
        invariant old(page.commands) + Guarded(lines, y).cmds == page.commands + Guarded(lines[j..], cursor).cmds
        invariant Guarded(lines, y).y == Guarded(lines[j..], cursor).y
      {
        assert lines[j..][0] == lines[j] && lines[j..][1..] == lines[j + 1..];
        if cursor >= ListFloor {
          AppendAssoc(page.commands, [Text(lines[j], 60.0, cursor, 10.0, Regular)], Guarded(lines[j + 1..], cursor - 15.0).cmds);
          page.DrawText(lines[j], 60.0, cursor, 10.0, Regular);
          cursor := cursor - 15.0;
        }
        j := j + 1;
      }
      AppendEmpty(page.commands);
    }
  }
}
