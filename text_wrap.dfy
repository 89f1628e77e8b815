/** `wrapText` of the standardized PDF generator: a greedy word wrap that splits
    the text on single spaces and fills each line up to a character budget. */
module TextWrap {
  import opened JsText

  /** The line being built with one more word: `currentLine ? currentLine + ' ' + word : word`. */
  function Extend(current: string, word: string): string {
    if current != "" then current + " " + word else word
  }

  /** The flushed lines plus the line being built, when it is not empty. */
  function Pending(lines: seq<string>, current: string): seq<string> {
    if current != "" then lines + [current] else lines
  }

  /** The wrap as a left fold over the remaining `words`: `lines` are flushed,
      `current` is the line being built. */
  function WrapWords(words: seq<string>, lines: seq<string>, current: string, maxChars: int): seq<string>
    decreases |words|
  {
    if words == [] then Pending(lines, current)
    else
      var test := Extend(current, words[0]);
      if |test| <= maxChars then WrapWords(words[1..], lines, test, maxChars)
      else WrapWords(words[1..], Pending(lines, current), words[0], maxChars)
  }

  /** The lines `wrapText(text, maxChars)` returns. */
  function Wrap(text: string, maxChars: int): seq<string> {
    WrapWords(Split(text, ' '), [], "", maxChars)
  }

  /** `wrapText`: one pass over the words, flushing the current line whenever the
      next word would push it past the budget. */
  method WrapText(text: string, maxChars: int) returns (lines: seq<string>)
    ensures lines == Wrap(text, maxChars)
  {
    var words := Split(text, ' ');
    lines := [];
    var currentLine := "";
    var i := 0;
    while i < |words|
      invariant 0 <= i <= |words|
      invariant WrapWords(words[i..], lines, currentLine, maxChars) == Wrap(text, maxChars)
    {
      var word := words[i];
      var testLine := if currentLine != "" then currentLine + " " + word else word;
      if |testLine| <= maxChars {
        currentLine := testLine;
      } else {
        if currentLine != "" {
          lines := lines + [currentLine];
        }
        currentLine := word;
      }
      assert words[i..][1..] == words[i + 1..];
      i := i + 1;
    }
    if currentLine != "" {
      lines := lines + [currentLine];
    }
  }

  /** The first word of a line: the text before its first space. */
  function FirstWord(line: string): string {
    Split(line, ' ')[0]
  }

  /** A line that fits the budget, or a single word standing alone. */
  predicate FitsOrSingle(line: string, maxChars: int) {
    |line| <= maxChars || ' ' !in line
  }

  /** What holds of the lines returned: none is empty; each fits or is a single word;
      and each line was flushed only because its successor's first word did not fit after it. */
  predicate WellWrapped(lines: seq<string>, maxChars: int) {
    && (forall k :: 0 <= k < |lines| ==> lines[k] != "" && FitsOrSingle(lines[k], maxChars))
    && (forall k :: 0 <= k < |lines| - 1 ==> |lines[k]| + 1 + |FirstWord(lines[k + 1])| > maxChars)
  }

  /** Flushing a line that is well placed after the lines before it. */
  lemma FlushWellWrapped(lines: seq<string>, current: string, maxChars: int)
    requires WellWrapped(lines, maxChars)
    requires FitsOrSingle(current, maxChars)
    requires lines != [] ==> |lines[|lines| - 1]| + 1 + |FirstWord(current)| > maxChars
    ensures WellWrapped(Pending(lines, current), maxChars)
  {
    if current != "" {
      var p := lines + [current];
      assert forall k :: 0 <= k < |lines| ==> p[k] == lines[k];
      assert p[|lines|] == current;
    }
  }

  /** A word appended to a non-empty line within the budget leaves its first word alone. */
  lemma ExtendKeepsFirstWord(current: string, w: string, maxChars: int)
    requires current != "" && ' ' !in w && |Extend(current, w)| <= maxChars
    ensures FitsOrSingle(Extend(current, w), maxChars)
    ensures FirstWord(Extend(current, w)) == FirstWord(current)
  {
    FirstPieceAfterSeparator(current, w, ' ');
    assert Extend(current, w) == current + [' '] + w;
  }

  /** The fold keeps the lines well wrapped, given a current line that would be well
      placed after them. */
  lemma {:induction false} WrapWordsWellWrapped(words: seq<string>, lines: seq<string>, current: string, maxChars: int)
    requires forall k :: 0 <= k < |words| ==> ' ' !in words[k]
    requires WellWrapped(lines, maxChars)
    requires FitsOrSingle(current, maxChars)
    requires lines != [] ==> |lines[|lines| - 1]| + 1 + |FirstWord(current)| > maxChars
    ensures WellWrapped(WrapWords(words, lines, current, maxChars), maxChars)
  {
    if words == [] {
      FlushWellWrapped(lines, current, maxChars);
    } else {
      var w := words[0];
      var test := Extend(current, w);
      assert forall k :: 0 <= k < |words| - 1 ==> words[1..][k] == words[k + 1];
      SplitWithoutSeparator(w, ' ');
      if |test| <= maxChars {
        if current != "" {
          ExtendKeepsFirstWord(current, w, maxChars);
        }
        WrapWordsWellWrapped(words[1..], lines, test, maxChars);
      } else {
        FlushWellWrapped(lines, current, maxChars);
        var flushed := Pending(lines, current);
        if current != "" {
          assert |current| + 1 + |FirstWord(w)| > maxChars;
        }
        WrapWordsWellWrapped(words[1..], flushed, w, maxChars);
      }
    }
  }

  /** Every line is non-empty and fits the budget unless it is one over-long word,
      and the wrap is greedy: a line is flushed only when `' ' + nextWord` does not fit. */
  lemma WrapIsWellWrapped(text: string, maxChars: int)
    ensures WellWrapped(Wrap(text, maxChars), maxChars)
  {
    SplitPiecesLackSeparator(text, ' ');
    WrapWordsWellWrapped(Split(text, ' '), [], "", maxChars);
  }

  /** Lines already flushed stay, in order, at the front of the result. */
  lemma {:induction false} WrapWordsKeepsLines(words: seq<string>, lines: seq<string>, current: string, maxChars: int)
    ensures var r := WrapWords(words, lines, current, maxChars); |lines| <= |r| && r[..|lines|] == lines
    decreases |words|
  {
    if words != [] {
      var test := Extend(current, words[0]);
      if |test| <= maxChars {
        WrapWordsKeepsLines(words[1..], lines, test, maxChars);
      } else {
        var flushed := Pending(lines, current);
        WrapWordsKeepsLines(words[1..], flushed, words[0], maxChars);
        assert flushed[..|lines|] == lines;
      }
    }
  }

  /** With nothing flushed yet, the first line returned starts with the line being built. */
  lemma {:induction false} WrapWordsFirstLine(words: seq<string>, current: string, maxChars: int)
    requires current != ""
    ensures var r := WrapWords(words, [], current, maxChars); r != [] && current <= r[0]
    decreases |words|
  {
    if words != [] {
      var test := Extend(current, words[0]);
      if |test| <= maxChars {
        WrapWordsFirstLine(words[1..], test, maxChars);
        assert test == current + (" " + words[0]);
      } else {
        assert Pending([], current) == [current];
        WrapWordsKeepsLines(words[1..], [current], words[0], maxChars);
        var r := WrapWords(words[1..], [current], words[0], maxChars);
        assert r[..1][0] == r[0];
      }
    }
  }

  /** A text whose first word fits the budget wraps to a first line that starts with that word. */
  lemma WrapFirstLine(text: string, maxChars: int)
    requires Split(text, ' ')[0] != "" && |Split(text, ' ')[0]| <= maxChars
    ensures Wrap(text, maxChars) != [] && Split(text, ' ')[0] <= Wrap(text, maxChars)[0]
  {
    var words := Split(text, ' ');
    WrapWordsFirstLine(words[1..], words[0], maxChars);
  }

  /** The empty text wraps to no lines at all. */
  lemma WrapEmpty(maxChars: int)
    ensures Wrap("", maxChars) == []
  {
    assert Split("", ' ') == [""];
    assert [""][1..] == [];
  }

  /** Joining two non-empty runs of pieces. */
  lemma {:induction false} JoinConcat(a: seq<string>, b: seq<string>)
    requires a != [] && b != []
    ensures Join(a + b, ' ') == Join(a, ' ') + " " + Join(b, ' ')
  {
    if |a| == 1 {
      assert (a + b)[1..] == b;
    } else {
      assert (a + b)[1..] == a[1..] + b;
      JoinConcat(a[1..], b);
    }
  }

  /** With no empty word, the fold loses and adds nothing between the words. */
  lemma {:induction false} WrapWordsJoin(words: seq<string>, lines: seq<string>, current: string, maxChars: int)
    requires forall k :: 0 <= k < |words| ==> words[k] != ""
    requires current == "" ==> lines == []
    ensures Join(WrapWords(words, lines, current, maxChars), ' ') == Join(Pending(lines, current) + words, ' ')
  {
    if words != [] {
      var w := words[0];
      var rest := words[1..];
      var test := Extend(current, w);
      assert words == [w] + rest;
      if |test| <= maxChars {
        assert WrapWords(words, lines, current, maxChars) == WrapWords(rest, lines, test, maxChars);
        WrapWordsJoin(rest, lines, test, maxChars);
        if current != "" {
          calc {
            Join(Pending(lines, test) + rest, ' ');
            == { assert Pending(lines, test) + rest == lines + [current + " " + w] + rest; }
            Join(lines + [current + " " + w] + rest, ' ');
            == { JoinPieceSplit(lines, current, w, rest); }
            Join(lines + [current] + [w] + rest, ' ');
            == { assert lines + [current] + [w] + rest == Pending(lines, current) + words; }
            Join(Pending(lines, current) + words, ' ');
          }
        } else {
          assert Pending(lines, test) + rest == words;
          assert Pending(lines, current) + words == words;
        }
      } else {
        var flushed := Pending(lines, current);
        assert WrapWords(words, lines, current, maxChars) == WrapWords(rest, flushed, w, maxChars);
        WrapWordsJoin(rest, flushed, w, maxChars);
        assert Pending(flushed, w) + rest == flushed + words;
      }
    } else {
      assert Pending(lines, current) + words == Pending(lines, current);
    }
  }

  /** Replacing `x + " " + y` by the two pieces `x`, `y` does not change the join. */
  lemma JoinPieceSplit(before: seq<string>, x: string, y: string, after: seq<string>)
    ensures Join(before + [x + " " + y] + after, ' ') == Join(before + [x] + [y] + after, ' ')
  {
    var tail1 := [x + " " + y] + after;
    var tail2 := [x] + [y] + after;
    assert Join(tail1, ' ') == Join(tail2, ' ') by {
      if after == [] {
        assert tail2[1..] == [y];
      } else {
        assert tail1[1..] == after;
        assert tail2[1..] == [y] + after;
        assert ([y] + after)[1..] == after;
      }
    }
    if before != [] {
      assert before + [x + " " + y] + after == before + tail1;
      assert before + [x] + [y] + after == before + tail2;
      JoinConcat(before, tail1);
      JoinConcat(before, tail2);
    }
  }

  /** When the text has no leading, trailing or doubled space (every word non-empty),
      joining the lines with one space gives the text back. */
  lemma WrapRoundTrip(text: string, maxChars: int)
    requires forall k :: 0 <= k < |Split(text, ' ')| ==> Split(text, ' ')[k] != ""
    ensures Join(Wrap(text, maxChars), ' ') == text
  {
    WrapWordsJoin(Split(text, ' '), [], "", maxChars);
    assert Pending([], "") + Split(text, ' ') == Split(text, ' ');
    JoinSplit(text, ' ');
  }

  /** The sum of the lengths of the lines plus one separator between each pair. */
  lemma {:induction false} JoinLength(parts: seq<string>)
    requires parts != []
    ensures |Join(parts, ' ')| == |parts[0]| + (if |parts| > 1 then 1 + |Join(parts[1..], ' ')| else 0)
  {
  }

  /** A well-spaced text that fits the budget stays on one line. */
  lemma ShortTextIsOneLine(text: string, maxChars: int)
    requires text != ""
    requires forall k :: 0 <= k < |Split(text, ' ')| ==> Split(text, ' ')[k] != ""
    requires |text| <= maxChars
    ensures Wrap(text, maxChars) == [text]
  {
    var lines := Wrap(text, maxChars);
    WrapRoundTrip(text, maxChars);
    WrapIsWellWrapped(text, maxChars);
    assert lines != [];
    JoinLength(lines);
    if |lines| > 1 {
      JoinLength(lines[1..]);
      assert lines[1..][0] == lines[1];
      JoinSplit(lines[1], ' ');
      JoinLength(Split(lines[1], ' '));
      assert false;
    }
  }
}
