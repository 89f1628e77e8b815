/** What the reference layout guarantees: the shape of each block, the cursor only
    moving down, content staying above the footer, and which sections appear. */
module LayoutProperties {
  import opened Wrappers
  import opened JsText
  import opened TextWrap
  import opened LessonPlanDataVo
  import opened PageLayout

  /** The vertical coordinate of a command. */
  function YOf(c: Command): real {
    match c
    case Text(_, _, y, _, _) => y
    case Rectangle(_, y, _, _) => y
    case Line(_, startY, _, _, _) => startY
  }

  /** Text commands only, strictly lower one after the other, all in `(lo, hi]`. */
  predicate Descending(cmds: seq<Command>, hi: real, lo: real) {
    && (forall i :: 0 <= i < |cmds| ==> cmds[i].Text? && lo < YOf(cmds[i]) <= hi)
    && (forall i, j :: 0 <= i < j < |cmds| ==> YOf(cmds[j]) < YOf(cmds[i]))
  }

  lemma DescendingConcat(a: seq<Command>, b: seq<Command>, hi: real, mid: real, lo: real)
    requires lo <= mid <= hi
    requires Descending(a, hi, mid) && Descending(b, mid, lo)
    ensures Descending(a + b, hi, lo)
  {
    var ab := a + b;
    forall i | 0 <= i < |ab|
      ensures ab[i].Text? && lo < YOf(ab[i]) <= hi
    {
      if i < |a| {
        assert ab[i] == a[i];
      } else {
        assert ab[i] == b[i - |a|];
      }
    }
    forall i, j | 0 <= i < j < |ab|
      ensures YOf(ab[j]) < YOf(ab[i])
    {
      if j < |a| {
        assert ab[i] == a[i] && ab[j] == a[j];
      } else if i < |a| {
        assert ab[i] == a[i] && ab[j] == b[j - |a|];
      } else {
        assert ab[i] == b[i - |a|] && ab[j] == b[j - |a|];
      }
    }
  }

  /** A column is text, 15 apart, from `y` down to just above `y - 15 * |lines|`. */
  lemma {:induction false} ColumnDescends(lines: seq<string>, x: real, y: real)
    ensures Descending(Column(lines, x, y), y, y - 15.0 * (|lines| as real))
  {
    if lines != [] {
      var n := |lines| as real;
      ColumnDescends(lines[1..], x, y - 15.0);
      DescendingConcat([Text(lines[0], x, y, 10.0, Regular)], Column(lines[1..], x, y - 15.0), y, y - 15.0, y - 15.0 * n);
    }
  }

  /** Exactly the list lines that fit are drawn: a prefix of the lines, each at or
      above the floor, 15 apart, and any line left out is left out because the cursor
      had dropped below the floor. */
  lemma {:induction false} GuardedFits(lines: seq<string>, y: real)
    ensures var g := Guarded(lines, y); var k := |g.cmds|;
      && k <= |lines|
      && g.cmds == Column(lines[..k], 60.0, y)
      && g.y == y - 15.0 * (k as real)
      && (forall i :: 0 <= i < k ==> YOf(g.cmds[i]) >= ListFloor)
      && (k < |lines| ==> g.y < ListFloor)
      && (y < ListFloor ==> k == 0)
  {
    if lines != [] {
      if y < ListFloor {
        GuardedFits(lines[1..], y);
        assert lines[..0] == [];
      } else {
        GuardedFits(lines[1..], y - 15.0);
        var rest := Guarded(lines[1..], y - 15.0);
        var k := |rest.cmds|;
        var g := Guarded(lines, y);
        assert lines[..k + 1][1..] == lines[1..][..k];
        forall i | 0 <= i < k + 1
          ensures YOf(g.cmds[i]) >= ListFloor
        {
          if i > 0 {
            assert g.cmds[i] == rest.cmds[i - 1];
          }
        }
      }
    }
  }

  /** Drawing two runs of list lines one after the other. */
  lemma {:induction false} GuardedAppend(a: seq<string>, b: seq<string>, y: real)
    ensures var ga := Guarded(a, y); var gb := Guarded(b, ga.y);
            Guarded(a + b, y) == Flowed(ga.cmds + gb.cmds, gb.y)
  {
    if a != [] {
      HeadOfAppend(a, b);
      if y < ListFloor {
        GuardedAppend(a[1..], b, y);
      } else {
        GuardedAppend(a[1..], b, y - 15.0);
        var ra := Guarded(a[1..], y - 15.0);
        AppendAssoc([Text(a[0], 60.0, y, 10.0, Regular)], ra.cmds, Guarded(b, ra.y).cmds);
      }
    } else {
      assert a + b == b;
    }
  }

  /** A section's heading, then its body lines, each lower than the one before. */
  lemma ParagraphDescends(heading: string, body: string, drop: real, y: real)
    requires drop > 0.0
    ensures var r := RenderParagraph(heading, body, drop, y); r.y < y && Descending(r.cmds, y, r.y)
  {
    var lines := SectionLines(body);
    var n := |lines| as real;
    var head := [Text(heading, 50.0, y, 12.0, Bold)];
    ColumnDescends(lines, 50.0, y - drop);
    assert Descending(head, y, y - drop);
    DescendingConcat(head, Column(lines, 50.0, y - drop), y, y - drop, y - drop - 15.0 * n);
  }

  /** A list's heading, then the list lines drawn, each lower than the one before. */
  lemma ListDescends(heading: string, items: seq<string>, y: real)
    ensures var r := RenderList(heading, items, y); r.y < y && Descending(r.cmds, y, r.y)
  {
    var top := y - 20.0;
    var lines := ListLines(items);
    var head := [Text(heading, 50.0, y, 14.0, Bold)];
    GuardedFits(lines, top);
    var g := Guarded(lines, top);
    ColumnDescends(lines[..|g.cmds|], 60.0, top);
    assert Descending(head, y, top);
    DescendingConcat(head, g.cmds, y, top, g.y);
  }

  /** The commands of a block descend from the cursor, and the cursor ends below all of them. */
  lemma RenderDescends(b: Block, y: real)
    requires b.Paragraph? ==> b.headingDrop > 0.0
    ensures Render(b, y).y < y
    ensures Descending(Render(b, y).cmds, y, Render(b, y).y)
  {
    match b
    case Paragraph(heading, body, drop) => ParagraphDescends(heading, body, drop, y);
    case NumberedList(heading, items) => ListDescends(heading, items, y);
  }

  /** Every paragraph entry moves the cursor down past its heading. */
  predicate WellFormed(es: seq<Entry>) {
    forall i :: 0 <= i < |es| ==> (es[i].block.Paragraph? ==> es[i].block.headingDrop > 0.0)
  }

  /** The cursor never moves up, and every command of the flow is text drawn strictly
      lower than the one before it, between the starting cursor and the final one. */
  lemma {:induction false} FlowDescends(es: seq<Entry>, y: real)
    requires WellFormed(es)
    ensures Flow(es, y).y <= y
    ensures Descending(Flow(es, y).cmds, y, Flow(es, y).y)
  {
    if es != [] {
      var first := Place(es[0], y);
      if Shown(es[0], y) {
        RenderDescends(es[0].block, y);
      }
      assert WellFormed(es[1..]) by {
        forall i | 0 <= i < |es| - 1 ensures es[1..][i] == es[i + 1] { }
      }
      FlowDescends(es[1..], first.y);
      DescendingConcat(first.cmds, Flow(es[1..], first.y).cmds, y, first.y, Flow(es, y).y);
    }
  }

  /** Placing two runs of entries one after the other. */
  lemma {:induction false} FlowAppend(a: seq<Entry>, b: seq<Entry>, y: real)
    ensures var fa := Flow(a, y); var fb := Flow(b, fa.y);
            Flow(a + b, y) == Flowed(fa.cmds + fb.cmds, fb.y)
  {
    if a != [] {
      var first := Place(a[0], y);
      HeadOfAppend(a, b);
      FlowAppend(a[1..], b, first.y);
      var f1 := Flow(a[1..], first.y);
      AppendAssoc(first.cmds, f1.cmds, Flow(b, f1.y).cmds);
    } else {
      assert a + b == b;
    }
  }

  /** After `base`, the page holds the whole flow of `es` from `y0` exactly when it holds
      `cmds` followed by the flow of the entries from `k` on, placed from the cursor `y`. */
  ghost predicate Drawn(base: seq<Command>, es: seq<Entry>, y0: real, cmds: seq<Command>, k: nat, y: real) {
    && k <= |es|
    && base + Flow(es, y0).cmds == cmds + Flow(es[k..], y).cmds
    && Flow(es, y0).y == Flow(es[k..], y).y
  }

  /** Moving past entry `k` of a flow, once it is placed at the cursor `at`: what was
      drawn before it, then the entry, then the rest of the flow still make up the flow. */
  lemma FlowStep(base: seq<Command>, es: seq<Entry>, k: nat, y: real, before: seq<Command>, at: real)
    requires k < |es|
    requires base + Flow(es, y).cmds == before + Flow(es[k..], at).cmds
    requires Flow(es, y).y == Flow(es[k..], at).y
    ensures var placed := Place(es[k], at);
      && base + Flow(es, y).cmds == (before + placed.cmds) + Flow(es[k + 1..], placed.y).cmds
      && Flow(es, y).y == Flow(es[k + 1..], placed.y).y
  {
    FlowAt(es, k, at);
    var placed := Place(es[k], at);
    AppendAssoc(before, placed.cmds, Flow(es[k + 1..], placed.y).cmds);
  }

  /** A flow of one entry is that entry placed. */
  lemma FlowOne(e: Entry, y: real)
    ensures Flow([e], y) == Place(e, y)
  {
    assert [e][1..] == [];
    assert Place(e, y).cmds + [] == Place(e, y).cmds;
  }

  /** Unfolding the flow at position `k`: the entry there, then the ones after it. */
  lemma FlowAt(es: seq<Entry>, k: nat, y: real)
    requires k < |es|
    ensures var first := Place(es[k], y); var rest := Flow(es[k + 1..], first.y);
            Flow(es[k..], y) == Flowed(first.cmds + rest.cmds, rest.y)
  {
    assert es[k..][0] == es[k];
    assert es[k..][1..] == es[k + 1..];
  }

  /** The lines of one more item follow those of the items before it. */
  lemma ItemLinesSnoc(items: seq<string>, i: nat)
    requires i < |items|
    ensures ItemLines(items[..i + 1]) == ItemLines(items[..i]) + Wrap(Numbered(i, items[i]), 75)
  {
    assert items[..i + 1][..i] == items[..i];
  }

  /** Line `i` of a column is drawn `15 * i` below the first. */
  lemma {:induction false} ColumnAt(lines: seq<string>, x: real, y: real, i: nat)
    requires i < |lines|
    ensures Column(lines, x, y)[i] == Text(lines[i], x, y - 15.0 * (i as real), 10.0, Regular)
  {
    if i > 0 {
      ColumnAt(lines[1..], x, y - 15.0, i - 1);
    }
  }

  /** `addSection`: the heading at the cursor, then at most two lines of the 80-character
      wrap, the first 18 below the heading and 15 apart; the cursor ends 10 below the
      last line, and no more than three texts are drawn. */
  lemma SectionShape(title: string, content: string, y: real)
    ensures var r := RenderParagraph(title, content, 18.0, y); var w := Wrap(content, 80); var n := Min(2, |w|);
      && |r.cmds| == 1 + n <= 3
      && r.cmds[0] == Text(title, 50.0, y, 12.0, Bold)
      && (forall i :: 0 <= i < n ==> r.cmds[1 + i] == Text(w[i], 50.0, y - 18.0 - 15.0 * (i as real), 10.0, Regular))
      && r.y == y - 18.0 - 15.0 * (n as real) - 10.0
  {
    var r := RenderParagraph(title, content, 18.0, y);
    var w := Wrap(content, 80);
    var n := Min(2, |w|);
    forall i | 0 <= i < n
      ensures r.cmds[1 + i] == Text(w[i], 50.0, y - 18.0 - 15.0 * (i as real), 10.0, Regular)
    {
      ColumnAt(SectionLines(content), 50.0, y - 18.0, i);
    }
  }

  /** The first line of item `i` (of the three shown) starts with its number, the single
      digit `1`, `2` or `3`, and a period. */
  lemma ItemNumbered(i: nat, item: string)
    requires i < 3
    ensures DecimalString(i + 1) == [('1' as int + i) as char]
    ensures var ls := Wrap(Numbered(i, item), 75); ls != [] && DecimalString(i + 1) + "." <= ls[0]
  {
    var d := DecimalString(i + 1) + ".";
    assert Numbered(i, item) == d + [' '] + item;
    assert ' ' !in d;
    FirstPieceAfterSeparator(d, item, ' ');
    SplitWithoutSeparator(d, ' ');
    WrapFirstLine(Numbered(i, item), 75);
  }

  /** Items after the third never reach the page. */
  lemma ListIgnoresLaterItems(items: seq<string>, more: seq<string>)
    requires |items| >= 3
    ensures ListLines(items + more) == ListLines(items)
  {
    assert (items + more)[..3] == items[..3];
  }

  /** A section draws something exactly when it is shown, and then starts with its heading
      at the cursor: 12 point for a section, 14 point for a list. */
  lemma PlaceHeading(e: Entry, y: real)
    ensures Place(e, y).cmds != [] <==> Shown(e, y)
    ensures Shown(e, y) ==>
              Place(e, y).cmds[0] == Text(e.block.heading, 50.0, y, if e.block.Paragraph? then 12.0 else 14.0, Bold)
    ensures !Shown(e, y) ==> Place(e, y).y == y
  {
  }

  /** The source's conditions for each lesson-plan section, at the cursor `y` it is reached with. */
  lemma FieldGates(d: LessonPlanData, y: real)
    ensures var es := FieldEntries(d);
      && (Shown(es[0], y) <==> Truthy(d.GetSubject()))
      && (Shown(es[1], y) <==> Truthy(d.GetTargetAudience()))
      && (Shown(es[2], y) <==> Truthy(d.GetDuration()))
      && (Shown(es[3], y) <==> |d.GetObjectives()| > 0)
      && (Shown(es[4], y) <==> |d.GetActivities()| > 0 && y > 150.0)
      && (Shown(es[5], y) <==> Truthy(d.GetResources()) && y > 100.0)
      && (Shown(es[6], y) <==> Truthy(d.GetEvaluation()) && y > 100.0)
  {
  }

  /** Section `k` is placed at the cursor the sections before it leave, after their
      commands and before those of the sections after it. */
  lemma FlowPlacesAt(es: seq<Entry>, k: nat, y: real)
    requires k < |es|
    ensures var before := Flow(es[..k], y); var placed := Place(es[k], before.y);
      Flow(es, y).cmds == before.cmds + placed.cmds + Flow(es[k + 1..], placed.y).cmds
  {
    assert es[..k] + es[k..] == es;
    FlowAppend(es[..k], es[k..], y);
    var before := Flow(es[..k], y);
    FlowAt(es, k, before.y);
    var placed := Place(es[k], before.y);
    AppendAssoc(before.cmds, placed.cmds, Flow(es[k + 1..], placed.y).cmds);
  }

  /** Every section of the page moves the cursor below its heading. */
  lemma EntriesWellFormed(description: Option<string>, data: Option<LessonPlanData>)
    ensures WellFormed(Entries(description, data))
  {
  }

  /** The fixed frame of every page: the full-width banner rectangle 70 below the top edge
      and 60 high, its caption, the title 140 below the top edge; then the sections, each
      command strictly below the previous one and all below the title; and last the divider
      at 60 and the caption at 40, whatever the content. */
  lemma PageFrame(title: string, description: Option<string>, data: Option<LessonPlanData>, date: string)
    ensures var page := Layout(title, description, data, date); var n := |page|;
      && n >= 5
      && page[0] == Rectangle(0.0, PageHeight - 70.0, PageWidth, 60.0)
      && page[1] == Text(Banner, 50.0, PageHeight - 50.0, 24.0, Bold)
      && page[2] == Text(title, 50.0, PageHeight - 140.0, 18.0, Bold)
      && Descending(page[3..n - 2], PageHeight - 170.0, Flow(Entries(description, data), FlowTop).y)
      && page[n - 2] == Line(50.0, 60.0, PageWidth - 50.0, 60.0, 1.0)
      && page[n - 1] == Text(FooterCaption(date), 50.0, 40.0, 8.0, Regular)
  {
    var flow := Flow(Entries(description, data), FlowTop).cmds;
    var page := Layout(title, description, data, date);
    EntriesWellFormed(description, data);
    FlowDescends(Entries(description, data), FlowTop);
    assert page[3..|page| - 2] == flow;
  }

  /** Every command of `cmds` lies strictly above `lo`. */
  predicate AllAbove(cmds: seq<Command>, lo: real) {
    forall i :: 0 <= i < |cmds| ==> YOf(cmds[i]) > lo
  }

  lemma AllAboveConcat(a: seq<Command>, b: seq<Command>, lo: real)
    requires AllAbove(a, lo) && AllAbove(b, lo)
    ensures AllAbove(a + b, lo)
  {
    forall i | 0 <= i < |a + b|
      ensures YOf((a + b)[i]) > lo
    {
      if i < |a| {
        assert (a + b)[i] == a[i];
      } else {
        assert (a + b)[i] == b[i - |a|];
      }
    }
  }

  /** A section reaches no lower than 15 below its first line, which is `drop` below the
      heading; the cursor ends at most 40 below that line. */
  lemma ParagraphSpan(heading: string, body: string, drop: real, y: real)
    requires drop > 0.0
    ensures var r := RenderParagraph(heading, body, drop, y);
      && (forall i :: 0 <= i < |r.cmds| ==> YOf(r.cmds[i]) >= y - drop - 15.0)
      && r.y >= y - drop - 40.0
  {
    var lines := SectionLines(body);
    var r := RenderParagraph(heading, body, drop, y);
    assert |lines| <= 2;
    forall i | 0 <= i < |r.cmds|
      ensures YOf(r.cmds[i]) >= y - drop - 15.0
    {
      if i > 0 {
        ColumnAt(lines, 50.0, y - drop, i - 1);
        assert r.cmds[i] == Column(lines, 50.0, y - drop)[i - 1];
      }
    }
  }

  /** A list whose heading is above the divider stays above it: its lines are at or
      above the list floor. */
  lemma ListSpan(heading: string, items: seq<string>, y: real)
    requires y > 60.0
    ensures AllAbove(RenderList(heading, items, y).cmds, 60.0)
  {
    var g := Guarded(ListLines(items), y - 20.0);
    GuardedFits(ListLines(items), y - 20.0);
    var r := RenderList(heading, items, y);
    forall i | 0 <= i < |r.cmds|
      ensures YOf(r.cmds[i]) > 60.0
    {
      if i > 0 {
        assert r.cmds[i] == g.cmds[i - 1];
      }
    }
  }

  /** Sections shown only while the cursor is above 100 never reach the divider at 60,
      wherever the cursor stands when they are reached. */
  lemma {:induction false} GatedFlowAbove(es: seq<Entry>, y: real)
    requires forall i :: 0 <= i < |es| ==> es[i].gate.Above? && es[i].gate.limit >= 100.0
    requires forall i :: 0 <= i < |es| ==> es[i].block.Paragraph? ==> 0.0 < es[i].block.headingDrop <= 20.0
    ensures AllAbove(Flow(es, y).cmds, 60.0)
  {
    if es != [] {
      var first := Place(es[0], y);
      if Shown(es[0], y) {
        match es[0].block
        case Paragraph(heading, body, drop) => ParagraphSpan(heading, body, drop, y);
        case NumberedList(heading, items) => ListSpan(heading, items, y);
      }
      assert forall i :: 0 <= i < |es| - 1 ==> es[1..][i] == es[i + 1];
      GatedFlowAbove(es[1..], first.y);
      AllAboveConcat(first.cmds, Flow(es[1..], first.y).cmds, 60.0);
    }
  }

  /** Ungated sections drop the cursor by at most 60 each, so a run of them started high
      enough stays above the divider. */
  lemma {:induction false} ParagraphsFlowAbove(es: seq<Entry>, y: real)
    requires forall i :: 0 <= i < |es| ==> es[i].block.Paragraph? && 0.0 < es[i].block.headingDrop <= 20.0
    requires y - 60.0 * (|es| as real) > 40.0
    ensures AllAbove(Flow(es, y).cmds, 60.0)
    ensures Flow(es, y).y >= y - 60.0 * (|es| as real)
  {
    if es != [] {
      var first := Place(es[0], y);
      if Shown(es[0], y) {
        ParagraphSpan(es[0].block.heading, es[0].block.body, es[0].block.headingDrop, y);
      }
      assert forall i :: 0 <= i < |es| - 1 ==> es[1..][i] == es[i + 1];
      ParagraphsFlowAbove(es[1..], first.y);
      AllAboveConcat(first.cmds, Flow(es[1..], first.y).cmds, 60.0);
    }
  }

  /** Four ungated sections, then a list, then sections shown only while the cursor is
      above 100: started high enough, none of it reaches the divider at 60. */
  lemma PlanFlowAbove(es: seq<Entry>, y: real)
    requires |es| >= 5 && y > 300.0
    requires forall i :: 0 <= i < 4 ==> es[i].block.Paragraph? && 0.0 < es[i].block.headingDrop <= 20.0
    requires es[4].block.NumberedList?
    requires forall i :: 5 <= i < |es| ==> es[i].gate.Above? && es[i].gate.limit >= 100.0
    requires forall i :: 5 <= i < |es| ==> es[i].block.Paragraph? ==> 0.0 < es[i].block.headingDrop <= 20.0
    ensures AllAbove(Flow(es, y).cmds, 60.0)
  {
    var head := es[..4];
    var rest := es[4..];
    assert es == head + rest && |head| == 4;
    ParagraphsFlowAbove(head, y);
    var fh := Flow(head, y);
    FlowAppend(head, rest, y);
    FlowAt(es, 4, fh.y);
    var objectives := Place(es[4], fh.y);
    if Shown(es[4], fh.y) {
      ListSpan(es[4].block.heading, es[4].block.items, fh.y);
    }
    var tail := es[5..];
    assert forall i :: 0 <= i < |tail| ==> tail[i] == es[i + 5];
    GatedFlowAbove(tail, objectives.y);
    AllAboveConcat(objectives.cmds, Flow(tail, objectives.y).cmds, 60.0);
    AllAboveConcat(fh.cmds, Flow(rest, fh.y).cmds, 60.0);
  }

  /** Nothing between the title and the footer reaches the divider at 60: the description
      and the three details end high on the page, list lines stop at the floor of 80, and
      the sections after the objectives are shown only while the cursor is above 100. */
  lemma FlowAboveFooter(description: Option<string>, data: Option<LessonPlanData>)
    ensures AllAbove(Flow(Entries(description, data), FlowTop).cmds, 60.0)
  {
    var es := Entries(description, data);
    if data.None? {
      ParagraphsFlowAbove(es, FlowTop);
    } else {
      PlanFlowAbove(es, FlowTop);
    }
  }

  /** On every page, everything drawn between the title and the footer lies strictly above
      the footer's divider. */
  lemma ContentAboveFooter(title: string, description: Option<string>, data: Option<LessonPlanData>, date: string)
    ensures var page := Layout(title, description, data, date); var n := |page|;
      && n >= 5
      && page[n - 2] == Line(50.0, 60.0, PageWidth - 50.0, 60.0, 1.0)
      && AllAbove(page[3..n - 2], 60.0)
  {
    var page := Layout(title, description, data, date);
    FlowAboveFooter(description, data);
    assert page[3..|page| - 2] == Flow(Entries(description, data), FlowTop).cmds;
  }

  /** No section whose content is there: nothing is drawn and the cursor stays. */
  lemma {:induction false} FlowOfAbsent(es: seq<Entry>, y: real)
    requires forall i :: 0 <= i < |es| ==> !Present(es[i].block)
    ensures Flow(es, y) == Flowed([], y)
  {
    if es != [] {
      FlowOfAbsent(es[1..], y);
    }
  }

  /** No lesson-plan field has anything to show. */
  predicate NothingSet(d: LessonPlanData) {
    && !Truthy(d.GetSubject()) && !Truthy(d.GetTargetAudience()) && !Truthy(d.GetDuration())
    && |d.GetObjectives()| == 0 && |d.GetActivities()| == 0
    && !Truthy(d.GetResources()) && !Truthy(d.GetEvaluation())
  }

  /** Without a description and without anything to show from the lesson plan, the page is
      the header and the footer only. */
  lemma BlankPage(title: string, description: Option<string>, data: Option<LessonPlanData>, date: string)
    requires !Truthy(description)
    requires data.Some? ==> NothingSet(data.value)
    ensures Layout(title, description, data, date) == Header(title) + Footer(date)
  {
    var es := Entries(description, data);
    FlowOfAbsent(es, FlowTop);
    AppendEmpty(Header(title));
  }

  /** Without lesson-plan data only the description can appear between header and footer. */
  lemma NoLessonPlanNoFields(title: string, description: Option<string>, date: string)
    ensures Layout(title, description, None, date) ==
      Header(title) + Place(DescriptionEntry(description), FlowTop).cmds + Footer(date)
  {
    FlowOne(DescriptionEntry(description), FlowTop);
  }
}
