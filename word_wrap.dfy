/** The greedy word wrap that `getHeightOfText`, `addText` and `addColorText` each
    carry a copy of. A line grows word by word while its measured width stays within
    the limit; it is cut at the last space that fitted, or, when no space fitted yet,
    after the first word however long; the rest is trimmed and wrapped again. */
module WordWrap {
  import opened JavaStrings

  /** The width a string takes when drawn: `fontSize * font.getStringWidth(s) / 1000`. */
  type Measure = string -> real

  /** The loop's state: while text remains, `lastSpace` is -1 or the index of a space in it. */
  predicate Resumable(text: string, lastSpace: int) {
    -1 <= lastSpace && (0 <= lastSpace && text != "" ==> lastSpace < |text| && text[lastSpace] == ' ')
  }

  /** The index the loop tries next: the next space after `lastSpace`, or the end of `text`. */
  function NextBreak(text: string, lastSpace: int): (k: int)
    requires Resumable(text, lastSpace) && text != ""
    ensures lastSpace < k <= |text|
    ensures k < |text| ==> text[k] == ' '
  {
    var found := IndexOf(text, ' ', lastSpace + 1);
    if found < 0 then |text| else found
  }

  /** Where the loop cuts once the words up to the next break no longer fit: at the last
      space that fitted, or after the first word when none did. */
  function CutAt(text: string, lastSpace: int): (cut: int)
    requires Resumable(text, lastSpace) && text != ""
    ensures 0 <= cut <= |text|
    ensures 0 <= lastSpace ==> cut == lastSpace
  {
    if lastSpace < 0 then NextBreak(text, lastSpace) else lastSpace
  }

  /** The lines the loop still emits from state (`text`, `lastSpace`). */
  function WrapFrom(text: string, lastSpace: int, width: real, measure: Measure): seq<string>
    requires Resumable(text, lastSpace)
    decreases |text|, |text| - lastSpace
  {
    if |text| == 0 then []
    else
      var spaceIndex := NextBreak(text, lastSpace);
      if measure(text[..spaceIndex]) > width then
        var cut := CutAt(text, lastSpace);
        [text[..cut]] + WrapFrom(Trim(text[cut..]), -1, width, measure)
      else if spaceIndex == |text| then [text]
      else WrapFrom(text, spaceIndex, width, measure)
  }

  /** The lines the wrap loop produces for `text` and the width limit `width`. */
  function WrapLines(text: string, width: real, measure: Measure): seq<string> {
    WrapFrom(text, -1, width, measure)
  }

  /** The text left after a cut is shorter than the text before it. */
  lemma CutShrinks(text: string, lastSpace: int)
    requires Resumable(text, lastSpace) && text != ""
    ensures |Trim(text[CutAt(text, lastSpace)..])| < |text|
  {
    var cut := CutAt(text, lastSpace);
    if cut == 0 {
      assert text[cut..] == text;
    }
  }

  /** One step of the loop that emits a line. */
  lemma UnfoldCut(text: string, lastSpace: int, width: real, measure: Measure)
    requires Resumable(text, lastSpace) && text != ""
    requires measure(text[..NextBreak(text, lastSpace)]) > width
    ensures WrapFrom(text, lastSpace, width, measure)
         == [text[..CutAt(text, lastSpace)]] + WrapFrom(Trim(text[CutAt(text, lastSpace)..]), -1, width, measure)
  {
  }

  /** One step of the loop that emits the rest of the text. */
  lemma UnfoldLast(text: string, lastSpace: int, width: real, measure: Measure)
    requires Resumable(text, lastSpace) && text != ""
    requires measure(text[..NextBreak(text, lastSpace)]) <= width
    requires NextBreak(text, lastSpace) == |text|
    ensures WrapFrom(text, lastSpace, width, measure) == [text]
  {
  }

  /** One step of the loop that moves on to the next space. */
  lemma UnfoldAdvance(text: string, lastSpace: int, width: real, measure: Measure)
    requires Resumable(text, lastSpace) && text != ""
    requires measure(text[..NextBreak(text, lastSpace)]) <= width
    requires NextBreak(text, lastSpace) < |text|
    ensures WrapFrom(text, lastSpace, width, measure) == WrapFrom(text, NextBreak(text, lastSpace), width, measure)
  {
  }

  /** The wrap loop, as each of the three copies runs it. */
  method Wrap(text0: string, width: real, measure: Measure) returns (lines: seq<string>)
    ensures lines == WrapLines(text0, width, measure)
  {
    var text := text0;
    var lastSpace := -1;
    lines := [];
    ghost var total := WrapLines(text0, width, measure);
    while |text| > 0
      invariant Resumable(text, lastSpace)
      invariant lines + WrapFrom(text, lastSpace, width, measure) == total
      decreases |text|, |text| - lastSpace
    {
      var line;
      text, lastSpace, line := WrapStep(text, lastSpace, width, measure);
      Regroup(lines, line, WrapFrom(text, lastSpace, width, measure));
      lines := lines + line;
    }
  }

  lemma Regroup(a: seq<string>, b: seq<string>, c: seq<string>)
    ensures (a + b) + c == a + (b + c)
  {
  }

  /** One pass of the loop body: the line it emits, if any, and the state it leaves. */
  method WrapStep(text: string, lastSpace: int, width: real, measure: Measure)
      returns (text': string, lastSpace': int, line: seq<string>)
    requires Resumable(text, lastSpace) && text != ""
    ensures Resumable(text', lastSpace')
    ensures |text'| < |text| || (text' == text && lastSpace < lastSpace')
    ensures WrapFrom(text, lastSpace, width, measure) == line + WrapFrom(text', lastSpace', width, measure)
  {
    text', lastSpace' := text, lastSpace;
    var spaceIndex := IndexOf(text, ' ', lastSpace + 1);
    if spaceIndex < 0 {
      spaceIndex := |text|;
    }
    assert spaceIndex == NextBreak(text, lastSpace);
    var subString := text[..spaceIndex];
    var size := measure(subString);
    if size > width {
      UnfoldCut(text, lastSpace, width, measure);
      CutShrinks(text, lastSpace);
      if lastSpace < 0 {
        lastSpace' := spaceIndex;
      }
      subString := text[..lastSpace'];
      line := [subString];
      text' := Trim(text[lastSpace'..]);
      lastSpace' := -1;
    } else if spaceIndex == |text| {
      UnfoldLast(text, lastSpace, width, measure);
      line := [text];
      text' := "";
    } else {
      UnfoldAdvance(text, lastSpace, width, measure);
      line := [];
      lastSpace' := spaceIndex;
    }
  }

  /** No space lies strictly between `lastSpace` and the next break. */
  lemma NextBreakFirst(text: string, lastSpace: int)
    requires Resumable(text, lastSpace) && text != ""
    ensures forall i :: lastSpace < i < NextBreak(text, lastSpace) ==> text[i] != ' '
  {
  }

  /** A line cut off the front, followed by lines keeping the trimmed rest, keeps the text. */
  lemma StripCut(text: string, cut: int, tail: seq<string>)
    requires 0 <= cut <= |text|
    requires Strip(Concat(tail)) == Strip(Trim(text[cut..]))
    ensures Strip(Concat([text[..cut]] + tail)) == Strip(text)
  {
    var lines := [text[..cut]] + tail;
    assert lines[0] == text[..cut] && lines[1..] == tail;
    assert Concat(lines) == text[..cut] + Concat(tail);
    StripAppend(text[..cut], Concat(tail));
    StripTrim(text[cut..]);
    assert text == text[..cut] + text[cut..];
    StripAppend(text[..cut], text[cut..]);
  }

  /** Nothing is lost or reordered: the lines hold the text's non-blank characters in order. */
  lemma {:induction false} WrapKeepsText(text: string, lastSpace: int, width: real, measure: Measure)
    requires Resumable(text, lastSpace)
    ensures Strip(Concat(WrapFrom(text, lastSpace, width, measure))) == Strip(text)
    decreases |text|, |text| - lastSpace
  {
    if |text| > 0 {
      var spaceIndex := NextBreak(text, lastSpace);
      if measure(text[..spaceIndex]) > width {
        UnfoldCut(text, lastSpace, width, measure);
        var cut := CutAt(text, lastSpace);
        var rest := Trim(text[cut..]);
        WrapKeepsText(rest, -1, width, measure);
        StripCut(text, cut, WrapFrom(rest, -1, width, measure));
      } else if spaceIndex == |text| {
        UnfoldLast(text, lastSpace, width, measure);
        assert Concat([text]) == text by {
          assert [text][1..] == [];
          assert text + [] == text;
        }
      } else {
        UnfoldAdvance(text, lastSpace, width, measure);
        WrapKeepsText(text, spaceIndex, width, measure);
      }
    }
  }

  /** A line was measured within the limit, or holds no space. */
  predicate LineFits(line: string, width: real, measure: Measure) {
    measure(line) <= width || ' ' !in line
  }

  /** The line a cut emits fits: either it ends at a space that was measured within the
      limit, or it is the first word, which holds no space. */
  lemma CutLineFits(text: string, lastSpace: int, width: real, measure: Measure)
    requires Resumable(text, lastSpace) && text != ""
    requires 0 <= lastSpace ==> measure(text[..lastSpace]) <= width
    ensures LineFits(text[..CutAt(text, lastSpace)], width, measure)
  {
    if lastSpace < 0 {
      var head := text[..CutAt(text, lastSpace)];
      NextBreakFirst(text, lastSpace);
      assert forall i :: 0 <= i < |head| ==> head[i] != ' ';
    }
  }

  lemma FitsCons(head: string, tail: seq<string>, width: real, measure: Measure)
    requires LineFits(head, width, measure)
    requires forall i :: 0 <= i < |tail| ==> LineFits(tail[i], width, measure)
    ensures var lines := [head] + tail;
            forall i :: 0 <= i < |lines| ==> LineFits(lines[i], width, measure)
  {
    var lines := [head] + tail;
    assert forall i :: 0 < i < |lines| ==> lines[i] == tail[i - 1];
  }

  /** Every line was measured within the limit, or holds no space: the first word of
      the remaining text, kept whole because no earlier space fitted. */
  lemma {:induction false} WrapLinesFit(text: string, lastSpace: int, width: real, measure: Measure)
    requires Resumable(text, lastSpace)
    requires 0 <= lastSpace && text != "" ==> measure(text[..lastSpace]) <= width
    ensures var lines := WrapFrom(text, lastSpace, width, measure);
            forall i :: 0 <= i < |lines| ==> LineFits(lines[i], width, measure)
    decreases |text|, |text| - lastSpace
  {
    if |text| > 0 {
      var spaceIndex := NextBreak(text, lastSpace);
      if measure(text[..spaceIndex]) > width {
        UnfoldCut(text, lastSpace, width, measure);
        var cut := CutAt(text, lastSpace);
        var rest := Trim(text[cut..]);
        WrapLinesFit(rest, -1, width, measure);
        CutLineFits(text, lastSpace, width, measure);
        FitsCons(text[..cut], WrapFrom(rest, -1, width, measure), width, measure);
      } else if spaceIndex == |text| {
        UnfoldLast(text, lastSpace, width, measure);
        assert text[..spaceIndex] == text;
      } else {
        UnfoldAdvance(text, lastSpace, width, measure);
        WrapLinesFit(text, spaceIndex, width, measure);
      }
    }
  }

  /** The wrap emits no line exactly when there is no text. */
  lemma {:induction false} WrapEmpty(text: string, lastSpace: int, width: real, measure: Measure)
    requires Resumable(text, lastSpace)
    ensures WrapFrom(text, lastSpace, width, measure) == [] <==> text == ""
    decreases |text|, |text| - lastSpace
  {
    if |text| > 0 {
      var spaceIndex := NextBreak(text, lastSpace);
      if measure(text[..spaceIndex]) <= width && spaceIndex < |text| {
        WrapEmpty(text, spaceIndex, width, measure);
      }
    }
  }

  /** Text whose every space-ended prefix, and the whole, fit the limit comes out as one line. */
  lemma {:induction false} WrapWhole(text: string, lastSpace: int, width: real, measure: Measure)
    requires Resumable(text, lastSpace) && text != ""
    requires forall i :: lastSpace < i < |text| && text[i] == ' ' ==> measure(text[..i]) <= width
    requires measure(text) <= width
    ensures WrapFrom(text, lastSpace, width, measure) == [text]
    decreases |text| - lastSpace
  {
    var spaceIndex := NextBreak(text, lastSpace);
    if spaceIndex < |text| {
      NextBreakFirst(text, lastSpace);
      WrapWhole(text, spaceIndex, width, measure);
    } else {
      assert text[..spaceIndex] == text;
    }
  }

  /** A single space, whatever the limit, is wrapped into exactly one line. */
  lemma WrapSpace(width: real, measure: Measure)
    ensures |WrapLines(" ", width, measure)| == 1
  {
    var text := " ";
    assert NextBreak(text, -1) == 0;
    if measure(text[..0]) > width {
      assert Trim(text[0..]) == "";
    } else {
      assert NextBreak(text, 0) == 1;
      if measure(text[..1]) > width {
        assert Trim(text[0..]) == "";
      }
    }
  }
}
