/** The flow-layout engine of `PDFGenerationUtils`: a cursor that moves down the page
    as items are placed, a page counter, and the writable width. Every placement first
    tests for room (`cursor.y <= required + MARGIN` starts a new page), then takes its x
    from a `Gravity`, records what it draws, and lowers the cursor by a fixed amount. */
module PdfGeneration {
  import opened JavaNumbers
  import opened JavaStrings
  import opened WordWrap
  import opened Placement
  import opened ColorText
  import opened RoundRect

  /** A font's metrics: `getStringWidth` in thousandths of the font size, and `getCapHeight`. */
  datatype Font = Font(stringWidth: string -> real, capHeight: real)

  /** The font size of widget labels (`widgetDefaultFontSize`). */
  const WidgetFontSize: int := 12

  /** The side of a radio-button widget, and the drop of a radio-button or checkbox row. */
  const ButtonSize: int := 15

  /** `PDRectangle.A4`: 210 mm by 297 mm at 72 points to the inch. */
  const A4Width: real := 210.0 * 72.0 / 25.4
  const A4Height: real := 297.0 * 72.0 / 25.4

  /** The width `s` takes in `font` at `fontSize`. */
  function TextWidth(font: Font, fontSize: int, s: string): real {
    font.stringWidth(s) / 1000.0 * fontSize as real
  }

  function Measured(font: Font, fontSize: int): Measure {
    s => TextWidth(font, fontSize, s)
  }

  /** The height of `lines` lines of cap height in `font` at `fontSize`, before the cast. */
  function BlockHeight(font: Font, fontSize: int, lines: nat): real {
    lines as real * (font.capHeight / 1000.0 * fontSize as real)
  }

  /** A non-negative line height gives a non-negative block. */
  lemma BlockHeightNonNegative(font: Font, fontSize: int, lines: nat)
    ensures 0.0 <= font.capHeight / 1000.0 * fontSize as real ==> 0.0 <= BlockHeight(font, fontSize, lines)
  {
  }

  /** `getHeightOfText`: the number of wrapped lines times the cap height, cast to `int`;
      no text has no height, and a non-negative cap height gives the whole part of the
      block's height. */
  function TextHeight(font: Font, text: string, width: real, fontSize: int): (h: int)
    ensures text == "" ==> h == 0
    ensures var lines := |WrapLines(text, width, Measured(font, fontSize))|;
            0.0 <= font.capHeight / 1000.0 * fontSize as real ==>
              0 <= h && h as real <= BlockHeight(font, fontSize, lines) < h as real + 1.0
  {
    WrapEmpty(text, -1, width, Measured(font, fontSize));
    var lines := |WrapLines(text, width, Measured(font, fontSize))|;
    BlockHeightNonNegative(font, fontSize, lines);
    Trunc(BlockHeight(font, fontSize, lines))
  }

  datatype Point = Point(x: int, y: int)

  /** The media box and the two spacing settings. */
  datatype Settings = Settings(mediaWidth: real, mediaHeight: real, margin: real, leading: int)

  /** Where the next item goes: the page, the writable width, and the cursor. */
  datatype Layout = Layout(pageNo: int, pageWidth: int, cursor: Point)

  /** The room test: the cursor is at or below `required` above the margin. */
  predicate NoRoom(s: Settings, l: Layout, required: real) {
    l.cursor.y as real <= required + s.margin
  }

  /** `initDrawingPoints` on page `pageNo`: the width between the margins and the
      cursor at the left margin, two margins below the top of the media box. */
  function FreshPage(s: Settings, pageNo: int): (l: Layout)
    ensures l.pageNo == pageNo
    // the width is cast toward zero: the floor of a non-negative span, the ceiling of a negative one
    ensures 0.0 <= s.mediaWidth - 2.0 * s.margin ==>
              l.pageWidth as real <= s.mediaWidth - 2.0 * s.margin < l.pageWidth as real + 1.0
    ensures s.mediaWidth - 2.0 * s.margin < 0.0 ==>
              s.mediaWidth - 2.0 * s.margin <= l.pageWidth as real < s.mediaWidth - 2.0 * s.margin + 1.0
    ensures -1.0 < l.cursor.x as real - s.margin < 1.0
    ensures -1.0 < l.cursor.y as real - (s.mediaHeight - 2.0 * s.margin) < 1.0
  {
    Layout(pageNo, Trunc(s.mediaWidth - 2.0 * s.margin), Point(Trunc(s.margin), Trunc(s.mediaHeight - 2.0 * s.margin)))
  }

  /** The room test and, when it fails, `addNewPage` followed by `initDrawingPoints`. */
  function Break(s: Settings, l: Layout, required: real): (b: Layout)
    ensures b.pageNo == l.pageNo + 1 <==> NoRoom(s, l, required)
    ensures b.pageNo == l.pageNo <==> !NoRoom(s, l, required)
    ensures !NoRoom(s, l, required) ==> b == l
    ensures NoRoom(s, l, required) ==> b == FreshPage(s, l.pageNo + 1)
  {
    if NoRoom(s, l, required) then FreshPage(s, l.pageNo + 1) else l
  }

  /** When a fresh page is tall enough for the item, there is room after the test. */
  lemma RoomAfterBreak(s: Settings, l: Layout, required: real)
    requires 0.0 <= s.mediaHeight - 2.0 * s.margin
    requires required + s.margin + 1.0 <= s.mediaHeight - 2.0 * s.margin
    ensures !NoRoom(s, Break(s, l, required), required)
  {
    if NoRoom(s, l, required) {
      var v := s.mediaHeight - 2.0 * s.margin;
      assert Trunc(v) as real > v - 1.0;
    }
  }

  /** On a page taller than the item plus three margins, whatever hangs `height` below
      the cursor after the room test ends above the bottom margin. */
  lemma ItemAboveMargin(s: Settings, l: Layout, height: real)
    requires 0.0 <= s.mediaHeight - 2.0 * s.margin
    requires height + s.margin + 1.0 <= s.mediaHeight - 2.0 * s.margin
    ensures Break(s, l, height).cursor.y as real - height > s.margin
  {
    RoomAfterBreak(s, l, height);
  }

  /** One thing drawn on a page. Positions are PDF user-space points, y upwards. */
  datatype Item =
    | Text(origin: Pos, bold: bool, fontSize: int, runs: seq<Run>)
    | Image(lowerLeft: Pos, width: real, height: real)
    | Stroke(from: Pos, to: Pos, color: Color)
    | FillRect(lowerLeft: Pos, width: real, height: real, color: Color)
    | FillPath(path: Path, color: Color)
    | Widget(field: Field, name: string, value: string, lowerLeft: Pos, width: real, height: real)

  /** The kind of form field a widget belongs to. A radio option carries its own export
      value and those of the whole group; a combo box its options. */
  datatype Field =
    | RadioOption(onValue: string, exportValues: seq<string>)
    | CheckBox
    | TextField
    | ComboBox(options: seq<string>)

  datatype Mark = Mark(page: int, item: Item)

  /** The baseline of line `i` of a block whose first baseline is at `top`. */
  function Baseline(top: real, step: real, i: int): real {
    top - i as real * step
  }

  /** Text lines `step` apart from `top` down, the first `skip` steps below `top`. */
  function TextBlock(page: int, x: real, top: real, step: real, skip: nat, bold: bool, fontSize: int, rows: seq<seq<Run>>): (m: seq<Mark>)
    ensures |m| == |rows|
  {
    seq(|rows|, i requires 0 <= i < |rows| => Mark(page, Text(Pos(x, Baseline(top, step, skip + i)), bold, fontSize, rows[i])))
  }

  /** Every line of a block is on the block's page, at its x, in its font, and carries
      its own row; the first line is `skip` steps below `top` and each further line
      exactly one step below the line before. */
  lemma TextBlockLines(page: int, x: real, top: real, step: real, skip: nat, bold: bool, fontSize: int, rows: seq<seq<Run>>)
    ensures var m := TextBlock(page, x, top, step, skip, bold, fontSize, rows);
            (forall i :: 0 <= i < |m| ==>
               m[i].page == page && m[i].item.Text? && m[i].item.origin.x == x &&
               m[i].item.bold == bold && m[i].item.fontSize == fontSize && m[i].item.runs == rows[i]) &&
            (|m| > 0 ==> m[0].item.origin.y == top - skip as real * step) &&
            (forall i :: 0 < i < |m| ==> m[i].item.origin.y == m[i - 1].item.origin.y - step)
  {
    var m := TextBlock(page, x, top, step, skip, bold, fontSize, rows);
    if |m| > 0 {
      assert m[0].item.origin.y == Baseline(top, step, skip);
    }
    forall i | 0 < i < |m|
      ensures m[i].item.origin.y == m[i - 1].item.origin.y - step
    {
      var k := (skip + i - 1) as real;
      assert m[i].item.origin.y == Baseline(top, step, skip + i);
      assert m[i - 1].item.origin.y == Baseline(top, step, skip + i - 1);
      assert (skip + i) as real == k + 1.0;
      assert (k + 1.0) * step == k * step + step;
    }
  }

  lemma TextBlockSnoc(page: int, x: real, top: real, step: real, skip: nat, bold: bool, fontSize: int, rows: seq<seq<Run>>, i: nat)
    requires i < |rows|
    ensures TextBlock(page, x, top, step, skip, bold, fontSize, rows[..i + 1])
         == TextBlock(page, x, top, step, skip, bold, fontSize, rows[..i])
            + [Mark(page, Text(Pos(x, Baseline(top, step, skip + i)), bold, fontSize, rows[i]))]
  {
    var left := TextBlock(page, x, top, step, skip, bold, fontSize, rows[..i + 1]);
    var right := TextBlock(page, x, top, step, skip, bold, fontSize, rows[..i])
            + [Mark(page, Text(Pos(x, Baseline(top, step, skip + i)), bold, fontSize, rows[i]))];
    assert |left| == |right|;
    forall k | 0 <= k < |left|
      ensures left[k] == right[k]
    {
    }
  }

  /** The lines of `addText`, each one run in the given colour. */
  function PlainRows(lines: seq<string>, color: Color): (rows: seq<seq<Run>>)
    ensures |rows| == |lines|
  {
    seq(|lines|, i requires 0 <= i < |lines| => [Run(lines[i], Some(color))])
  }

  /** The lines of `addColorText`, each split into coloured runs. */
  function ColorRows(lines: seq<string>, fragments: seq<Fragment>): (rows: seq<seq<Run>>)
    ensures |rows| == |lines|
  {
    seq(|lines|, i requires 0 <= i < |lines| => ColorRuns(lines[i], fragments))
  }

  /** A radio button: its label (drawn beside it) and its export value. */
  type Button = (string, string)

  /** How far right of the first button button `n` sits: each earlier label's width at
      the widget font size plus six leadings. */
  function ButtonOffset(regular: Font, leading: int, buttons: seq<Button>, n: nat): real
    requires n <= |buttons|
  {
    if n == 0 then 0.0
    else ButtonOffset(regular, leading, buttons, n - 1)
         + TextWidth(regular, WidgetFontSize, buttons[n - 1].0) + 6.0 * leading as real
  }

  /** The export values of a radio group, in button order. */
  function Exports(buttons: seq<Button>): (values: seq<string>)
    ensures |values| == |buttons|
  {
    seq(|buttons|, i requires 0 <= i < |buttons| => buttons[i].1)
  }

  /** The widget and the label of one radio button whose widget's lower left is (x, y). */
  function ButtonMarks(page: int, x: real, y: real, buttons: seq<Button>, k: nat, color: Color, name: string, value: string): seq<Mark>
    requires k < |buttons|
  {
    [Mark(page, Widget(RadioOption(buttons[k].1, Exports(buttons)), name, value, Pos(x, y), ButtonSize as real, ButtonSize as real)),
     Mark(page, Text(Pos(x + 25.0, y + 2.0), false, WidgetFontSize, [Run(buttons[k].0, Some(color))]))]
  }

  /** The marks of the first `n` radio buttons of a row starting at `x`. */
  function RadioMarks(page: int, x: real, y: real, buttons: seq<Button>, color: Color, name: string, value: string, regular: Font, leading: int, n: nat): (m: seq<Mark>)
    requires n <= |buttons|
    ensures |m| == 2 * n
  {
    if n == 0 then []
    else RadioMarks(page, x, y, buttons, color, name, value, regular, leading, n - 1)
         + ButtonMarks(page, x + ButtonOffset(regular, leading, buttons, n - 1), y, buttons, n - 1, color, name, value)
  }

  /** Button `k` of the row is a widget of the group whose "on" value is the button's
      value, listed `k`-th among the group's export values, with the button's own label
      25 points to its right; the widget sits `ButtonOffset` right of the row's start. */
  lemma {:induction false} RadioMarksAt(page: int, x: real, y: real, buttons: seq<Button>, color: Color, name: string, value: string, regular: Font, leading: int, n: nat, k: nat)
    requires k < n <= |buttons|
    ensures var m := RadioMarks(page, x, y, buttons, color, name, value, regular, leading, n);
            var left := x + ButtonOffset(regular, leading, buttons, k);
            m[2 * k].page == page && m[2 * k + 1].page == page &&
            m[2 * k].item.Widget? && m[2 * k].item.field.RadioOption? &&
            m[2 * k].item.field.onValue == buttons[k].1 &&
            |m[2 * k].item.field.exportValues| == |buttons| &&
            m[2 * k].item.field.exportValues[k] == m[2 * k].item.field.onValue &&
            m[2 * k].item.name == name && m[2 * k].item.value == value &&
            m[2 * k].item.lowerLeft == Pos(left, y) &&
            m[2 * k + 1].item.Text? && m[2 * k + 1].item.runs == [Run(buttons[k].0, Some(color))] &&
            m[2 * k + 1].item.origin == Pos(left + 25.0, y + 2.0)
  {
    var prefix := RadioMarks(page, x, y, buttons, color, name, value, regular, leading, n - 1);
    var last := ButtonMarks(page, x + ButtonOffset(regular, leading, buttons, n - 1), y, buttons, n - 1, color, name, value);
    assert RadioMarks(page, x, y, buttons, color, name, value, regular, leading, n) == prefix + last;
    if k < n - 1 {
      RadioMarksAt(page, x, y, buttons, color, name, value, regular, leading, n - 1, k);
    }
  }

  /** Buttons go left to right, and when six leadings exceed the 25-point label indent
      each label ends before the next button begins. */
  lemma ButtonsLeftToRight(regular: Font, leading: int, buttons: seq<Button>, i: nat)
    requires i + 1 < |buttons|
    requires 0.0 <= TextWidth(regular, WidgetFontSize, buttons[i].0)
    requires 25 < 6 * leading
    ensures var here := ButtonOffset(regular, leading, buttons, i);
            var next := ButtonOffset(regular, leading, buttons, i + 1);
            here < next &&
            here + 25.0 + TextWidth(regular, WidgetFontSize, buttons[i].0) < next
  {
  }

  /** The joining loop of `addColorText`: each fragment's text followed by ",". */
  method Join(fragments: seq<Fragment>) returns (joined: string)
    ensures joined == JoinFragments(fragments)
  {
    ghost var keys := Keys(fragments);
    joined := "";
    var k := 0;
    while k < |fragments|
      invariant 0 <= k <= |fragments|
      invariant joined == JoinTerminated(keys[..k], ',')
    {
      assert keys[..k + 1] == keys[..k] + [fragments[k].0];
      JoinTerminatedSnoc(keys[..k], fragments[k].0, ',');
      joined := joined + fragments[k].0 + ",";
      k := k + 1;
    }
    assert keys[..k] == keys;
  }

  /** The inner loop of `addColorText`: one run per ","-separated piece of the line. */
  method SplitRuns(line: string, fragments: seq<Fragment>) returns (runs: seq<Run>)
    ensures runs == ColorRuns(line, fragments)
  {
    ColorRunsPieces(line, fragments);
    var pieces := Split(line, ',');
    runs := [];
    var j := 0;
    while j < |pieces|
      invariant 0 <= j <= |pieces|
      invariant runs == ColorRuns(line, fragments)[..j]
    {
      runs := runs + [Run(Erase(pieces[j], ','), Lookup(fragments, pieces[j]))];
      j := j + 1;
    }
  }

  /** The page state and the drawing record of one document being generated. */
  class PdfGenerator {
    const mediaWidth: real
    const mediaHeight: real
    /** Helvetica and Helvetica Bold. */
    const regular: Font
    const bold: Font
    /** The text line step `1.2f * fontSize` for each font size, as the float computes it. */
    const lineStep: int -> real

    var margin: real
    var leading: int
    var pageNo: int
    var pageWidth: int
    var cursor: Point
    /** Everything drawn so far, in order. */
    var content: seq<Mark>

    function Config(): Settings
      reads this`margin, this`leading
    {
      Settings(mediaWidth, mediaHeight, margin, leading)
    }

    function Place(): Layout
      reads this`pageNo, this`pageWidth, this`cursor
    {
      Layout(pageNo, pageWidth, cursor)
    }

    /** A document of one empty page, margin 25 and leading 10. */
    constructor (mediaWidth: real, mediaHeight: real, regular: Font, bold: Font, lineStep: int -> real)
      ensures this.mediaWidth == mediaWidth && this.mediaHeight == mediaHeight
      ensures this.regular == regular && this.bold == bold && this.lineStep == lineStep
      ensures margin == 25.0 && leading == 10
      ensures Place() == FreshPage(Config(), 0)
      ensures content == []
    {
      this.mediaWidth := mediaWidth;
      this.mediaHeight := mediaHeight;
      this.regular := regular;
      this.bold := bold;
      this.lineStep := lineStep;
      margin := 25.0;
      leading := 10;
      pageNo := -1;
      pageWidth := 0;
      cursor := Point(0, 0);
      content := [];
      new;
      AddNewPage();
      InitDrawingPoints();
    }

    method SetMargin(margin: real)
      modifies this`margin
      ensures this.margin == margin
    {
      this.margin := margin;
    }

    method SetLeading(leading: int)
      modifies this`leading
      ensures this.leading == leading
    {
      this.leading := leading;
    }

    function PageWidth(): int
      reads this`pageWidth
    {
      pageWidth
    }

    method AddNewPage()
      modifies this`pageNo
      ensures pageNo == old(pageNo) + 1
    {
      pageNo := pageNo + 1;
    }

    method InitDrawingPoints()
      modifies this`pageWidth, this`cursor
      ensures Place() == FreshPage(Config(), pageNo)
    {
      pageWidth := Trunc(mediaWidth - 2.0 * margin);
      cursor := Point(Trunc(margin), Trunc(mediaHeight - 2.0 * margin));
    }

    /** The room test every placement starts with. */
    method BreakIfFull(required: real)
      modifies this`pageNo, this`pageWidth, this`cursor
      ensures Place() == Break(Config(), old(Place()), required)
    {
      if cursor.y as real <= required + margin {
        AddNewPage();
        InitDrawingPoints();
      }
    }

    /** `getHeightOfText`: always measured in the regular font. */
    method HeightOfText(text: string, width: real, fontSize: int) returns (h: int)
      ensures h == TextHeight(regular, text, width, fontSize)
    {
      var lines := Wrap(text, width, Measured(regular, fontSize));
      h := Trunc(BlockHeight(regular, fontSize, |lines|));
    }

    /** `addText`: room for the text's height, x from the gravity, then the wrapped lines
        one step apart from the cursor down; the cursor ends one leading below the last
        step. Empty text is drawn as a single space, after the room test. */
    method AddText(text: string, fontSize: int, isBold: bool, color: Color, gravity: Gravity)
      modifies this`pageNo, this`pageWidth, this`cursor, this`content
      ensures var font := if isBold then bold else regular;
              var b := Break(Config(), old(Place()), TextHeight(regular, text, old(pageWidth) as real, fontSize) as real);
              var x := TextX(gravity, b.pageWidth, margin, TextWidth(font, fontSize, text));
              var lines := WrapLines(if text == "" then " " else text, b.pageWidth as real, Measured(font, fontSize));
              pageNo == b.pageNo && pageWidth == b.pageWidth &&
              cursor == Point(x, StepDown(b.cursor.y, lineStep(fontSize), |lines|) - leading) &&
              content == old(content) + TextBlock(b.pageNo, x as real, b.cursor.y as real, lineStep(fontSize), 0, isBold, fontSize, PlainRows(lines, color))
    {
      var font := if isBold then bold else regular;
      var textWidth := TextWidth(font, fontSize, text);
      var height := HeightOfText(text, pageWidth as real, fontSize);
      BreakIfFull(height as real);
      cursor := cursor.(x := TextX(gravity, pageWidth, margin, textWidth));
      var toDraw := if text == "" then " " else text;
      var lines := Wrap(toDraw, pageWidth as real, Measured(font, fontSize));
      var y := ShowLines(pageNo, cursor.x, cursor.y, lineStep(fontSize), isBold, fontSize, lines, color);
      cursor := cursor.(y := y - leading);
    }

    /** The drawing loop of `addText`: line `i` on baseline `y0 - i * step`, and the y
        cast to `int` after every step. */
    method ShowLines(page: int, x: int, y0: int, step: real, isBold: bool, fontSize: int, lines: seq<string>, color: Color)
        returns (y: int)
      modifies this`content
      ensures y == StepDown(y0, step, |lines|)
      ensures content == old(content) + TextBlock(page, x as real, y0 as real, step, 0, isBold, fontSize, PlainRows(lines, color))
    {
      ghost var rows := PlainRows(lines, color);
      y := y0;
      var i := 0;
      while i < |lines|
        invariant 0 <= i <= |lines|
        invariant y == StepDown(y0, step, i)
        invariant content == old(content) + TextBlock(page, x as real, y0 as real, step, 0, isBold, fontSize, rows[..i])
      {
        TextBlockSnoc(page, x as real, y0 as real, step, 0, isBold, fontSize, rows, i);
        content := content + [Mark(page, Text(Pos(x as real, Baseline(y0 as real, step, i)), isBold, fontSize, [Run(lines[i], Some(color))]))];
        y := Trunc(y as real - step);
        i := i + 1;
      }
      assert rows[..i] == rows;
    }

    /** `addColorText`: the fragments' texts, each followed by ",", are joined, measured,
        placed and wrapped like `addText`; each line is drawn one step below the previous
        one (the first one step below the cursor), split on "," into runs coloured by
        looking each piece up among the fragments. */
    method AddColorText(fragments: seq<Fragment>, fontSize: int, isBold: bool, gravity: Gravity)
      modifies this`pageNo, this`pageWidth, this`cursor, this`content
      ensures var font := if isBold then bold else regular;
              var joined := JoinFragments(fragments);
              var b := Break(Config(), old(Place()), TextHeight(regular, joined, old(pageWidth) as real, fontSize) as real);
              var x := TextX(gravity, b.pageWidth, margin, TextWidth(font, fontSize, joined));
              var lines := WrapLines(joined, b.pageWidth as real, Measured(font, fontSize));
              pageNo == b.pageNo && pageWidth == b.pageWidth &&
              cursor == Point(x, StepDown(b.cursor.y, lineStep(fontSize), |lines|) - leading) &&
              content == old(content) + TextBlock(b.pageNo, x as real, b.cursor.y as real, lineStep(fontSize), 1, isBold, fontSize, ColorRows(lines, fragments))
    {
      var joined := Join(fragments);
      var height := HeightOfText(joined, pageWidth as real, fontSize);
      BreakIfFull(height as real);
      var font := if isBold then bold else regular;
      var textWidth := TextWidth(font, fontSize, joined);
      cursor := cursor.(x := TextX(gravity, pageWidth, margin, textWidth));
      var lines := Wrap(joined, pageWidth as real, Measured(font, fontSize));
      var y := ShowColorLines(pageNo, cursor.x, cursor.y, lineStep(fontSize), isBold, fontSize, lines, fragments);
      cursor := cursor.(y := y - leading);
    }

    /** The drawing loop of `addColorText`: the text position moves down one step before
        each line, so line `i` sits on baseline `y0 - (i + 1) * step`. */
    method ShowColorLines(page: int, x: int, y0: int, step: real, isBold: bool, fontSize: int, lines: seq<string>, fragments: seq<Fragment>)
        returns (y: int)
      modifies this`content
      ensures y == StepDown(y0, step, |lines|)
      ensures content == old(content) + TextBlock(page, x as real, y0 as real, step, 1, isBold, fontSize, ColorRows(lines, fragments))
    {
      ghost var rows := ColorRows(lines, fragments);
      y := y0;
      var i := 0;
      while i < |lines|
        invariant 0 <= i <= |lines|
        invariant y == StepDown(y0, step, i)
        invariant content == old(content) + TextBlock(page, x as real, y0 as real, step, 1, isBold, fontSize, rows[..i])
      {
        var runs := SplitRuns(lines[i], fragments);
        TextBlockSnoc(page, x as real, y0 as real, step, 1, isBold, fontSize, rows, i);
        content := content + [Mark(page, Text(Pos(x as real, Baseline(y0 as real, step, 1 + i)), isBold, fontSize, runs))];
        y := Trunc(y as real - step);
        i := i + 1;
      }
      assert rows[..i] == rows;
    }

    /** `insertImage`: room for the image, x from the gravity, the image drawn with its
        top at the cursor, and the cursor lowered by its height and four leadings. An
        empty location, or a remote image that could be neither found in the cache nor
        downloaded (`fetched` false), returns before the cursor is lowered; an image that
        cannot be read (`readable` false) is not drawn but the cursor is still lowered.
        The result is always 0. */
    method InsertImage(url: string, width: int, height: int, gravity: Gravity, fetched: bool, readable: bool) returns (r: int)
      modifies this`pageNo, this`pageWidth, this`cursor, this`content
      ensures r == 0
      ensures var b := Break(Config(), old(Place()), height as real);
              var x := ShapeX(gravity, b.pageWidth, margin, width);
              var early := url == "" || (Contains(url, "http") && !fetched);
              pageNo == b.pageNo && pageWidth == b.pageWidth &&
              cursor == Point(x, if early then b.cursor.y else b.cursor.y - height - 4 * leading) &&
              content == old(content) + (if !early && readable then [Mark(b.pageNo, Image(Pos(x as real, (b.cursor.y - height) as real), width as real, height as real))] else [])
    {
      BreakIfFull(height as real);
      var y := cursor.y - height;
      cursor := cursor.(x := ShapeX(gravity, pageWidth, margin, width));
      var x := cursor.x;
      r := 0;
      if url == "" {
        return;
      } else if Contains(url, "http") && !fetched {
        return;
      }
      if readable {
        content := content + [Mark(pageNo, Image(Pos(x as real, y as real), width as real, height as real))];
      }
      cursor := cursor.(y := y - 4 * leading);
    }

    /** `drawLines`: a horizontal stroke `width` long at the cursor; the cursor moves to
        the stroke's right end and two leadings down. */
    method DrawLines(width: int, color: Color, gravity: Gravity)
      modifies this`pageNo, this`pageWidth, this`cursor, this`content
      ensures var b := Break(Config(), old(Place()), 0.0);
              var x := ShapeX(gravity, b.pageWidth, margin, width);
              var y := b.cursor.y;
              pageNo == b.pageNo && pageWidth == b.pageWidth &&
              cursor == Point(x + width, y - 2 * leading) &&
              content == old(content) + [Mark(b.pageNo, Stroke(Pos(x as real, y as real), Pos((x + width) as real, y as real), color))]
    {
      BreakIfFull(0.0);
      var y := cursor.y;
      cursor := cursor.(x := ShapeX(gravity, pageWidth, margin, width));
      var x := cursor.x;
      content := content + [Mark(pageNo, Stroke(Pos(x as real, y as real), Pos((x + width) as real, y as real), color))];
      cursor := Point(cursor.x + width, y - 2 * leading);
    }

    /** `moveToNextLine`: back to the margin and one leading down, with no room test. */
    method MoveToNextLine()
      modifies this`cursor
      ensures cursor == Point(Trunc(margin), old(cursor.y) - leading)
    {
      cursor := Point(Trunc(margin), cursor.y - leading);
    }

    /** `drawRectangle`: a filled rectangle hanging from the cursor; the cursor ends one
        leading below it. */
    method DrawRectangle(width: int, height: int, color: Color, gravity: Gravity)
      modifies this`pageNo, this`pageWidth, this`cursor, this`content
      ensures var b := Break(Config(), old(Place()), height as real);
              var x := ShapeX(gravity, b.pageWidth, margin, width);
              var bottom := b.cursor.y - height;
              pageNo == b.pageNo && pageWidth == b.pageWidth &&
              cursor == Point(x, bottom - leading) &&
              content == old(content) + [Mark(b.pageNo, FillRect(Pos(x as real, bottom as real), width as real, height as real, color))]
    {
      BreakIfFull(height as real);
      var y := cursor.y - height;
      cursor := cursor.(x := ShapeX(gravity, pageWidth, margin, width));
      var x := cursor.x;
      content := content + [Mark(pageNo, FillRect(Pos(x as real, y as real), width as real, height as real, color))];
      cursor := cursor.(y := y - leading);
    }

    /** `drawRoundedRectangle`: a filled rounded rectangle (one corner radius, optionally
        only the top corners rounded) hanging from the cursor; the cursor ends four
        leadings below it. */
    method DrawRoundedRectangle(width: int, height: int, cornerRadius: int, topOnly: bool, color: Color, gravity: Gravity)
      modifies this`pageNo, this`pageWidth, this`cursor, this`content
      ensures var b := Break(Config(), old(Place()), height as real);
              var x := ShapeX(gravity, b.pageWidth, margin, width);
              var y := b.cursor.y;
              pageNo == b.pageNo && pageWidth == b.pageWidth &&
              cursor == Point(x, y - height - 4 * leading) &&
              content == old(content) + [Mark(b.pageNo, FillPath(Add(Circular(cornerRadius as real, topOnly), Pos(x as real, y as real), width as real, height as real), color))]
    {
      BreakIfFull(height as real);
      var y := cursor.y;
      cursor := cursor.(x := ShapeX(gravity, pageWidth, margin, width));
      var x := cursor.x;
      var shape := Circular(cornerRadius as real, topOnly);
      content := content + [Mark(pageNo, FillPath(Add(shape, Pos(x as real, y as real), width as real, height as real), color))];
      cursor := cursor.(y := y - height - 4 * leading);
    }

    /** `addRadioButtons`: a row of 15-point widgets of one radio group at the cursor, the
        first ten points right of it, each labelled 25 points to its right; the cursor
        drops by 15 and two leadings and keeps its x. */
    method AddRadioButtons(buttons: seq<Button>, defaultValue: string, color: Color, partialName: string)
      modifies this`pageNo, this`pageWidth, this`cursor, this`content
      ensures var b := Break(Config(), old(Place()), ButtonSize as real);
              var y := b.cursor.y;
              pageNo == b.pageNo && pageWidth == b.pageWidth &&
              cursor == Point(b.cursor.x, y - ButtonSize - 2 * leading) &&
              content == old(content) + RadioMarks(b.pageNo, b.cursor.x as real + 10.0, y as real, buttons, color, partialName, defaultValue, regular, leading, |buttons|)
    {
      BreakIfFull(ButtonSize as real);
      var y := cursor.y;
      var x := cursor.x as real;
      var exports := Exports(buttons);
      ghost var first := x + 10.0;
      ghost var before := content;
      x := x + 10.0;
      var index := 0;
      var oldValue := "";
      while index < |buttons|
        invariant 0 <= index <= |buttons|
        invariant index == 0 ==> x == first
        invariant 0 < index ==> x == first + ButtonOffset(regular, leading, buttons, index - 1) && oldValue == buttons[index - 1].0
        modifies this`content
        invariant content == before + RadioMarks(pageNo, first, y as real, buttons, color, partialName, defaultValue, regular, leading, index)
      {
        if index != 0 {
          var textWidth := TextWidth(regular, WidgetFontSize, oldValue);
          x := x + textWidth + 6.0 * leading as real;
        }
        var caption := buttons[index].0;
        var value := buttons[index].1;
        content := content + [Mark(pageNo, Widget(RadioOption(value, exports), partialName, defaultValue, Pos(x, y as real), ButtonSize as real, ButtonSize as real)),
                              Mark(pageNo, Text(Pos(x + 25.0, y as real + 2.0), false, WidgetFontSize, [Run(caption, Some(color))]))];
        index := index + 1;
        oldValue := caption;
      }
      cursor := cursor.(y := y - ButtonSize - 2 * leading);
    }

    /** `addCheckBox`: an 18-point widget at the cursor, its default value written 25
        points to the right; the cursor drops by 15 and two leadings and keeps its x. */
    method AddCheckBox(partialName: string, defaultValue: string, color: Color)
      modifies this`pageNo, this`pageWidth, this`cursor, this`content
      ensures var b := Break(Config(), old(Place()), ButtonSize as real);
              var x := b.cursor.x as real;
              var y := b.cursor.y;
              pageNo == b.pageNo && pageWidth == b.pageWidth &&
              cursor == Point(b.cursor.x, y - ButtonSize - 2 * leading) &&
              content == old(content) + [Mark(b.pageNo, Widget(CheckBox, partialName, "", Pos(x, y as real), 18.0, 18.0)),
                                         Mark(b.pageNo, Text(Pos(x + 25.0, y as real + 6.0), false, WidgetFontSize, [Run(defaultValue, Some(color))]))]
    {
      BreakIfFull(ButtonSize as real);
      var x := cursor.x as real;
      var y := cursor.y;
      content := content + [Mark(pageNo, Widget(CheckBox, partialName, "", Pos(x, y as real), 18.0, 18.0)),
                            Mark(pageNo, Text(Pos(x + 25.0, y as real + 6.0), false, WidgetFontSize, [Run(defaultValue, Some(color))]))];
      cursor := cursor.(y := y - ButtonSize - 2 * leading);
    }

    /** `addTextField`: the cursor first drops three leadings, then the room test; the
        widget, inset by 4 points of padding, hangs 15 points and two leadings below
        the cursor, which ends three leadings below that. */
    method AddTextField(partialName: string, defaultValue: string, width: int, height: int)
      modifies this`pageNo, this`pageWidth, this`cursor, this`content
      ensures var lowered := old(Place()).(cursor := old(cursor).(y := old(cursor.y) - 3 * leading));
              var b := Break(Config(), lowered, height as real);
              var x := b.cursor.x as real;
              var top := b.cursor.y - ButtonSize - 2 * leading;
              pageNo == b.pageNo && pageWidth == b.pageWidth &&
              cursor == Point(b.cursor.x, top - 3 * leading) &&
              content == old(content) + [Mark(b.pageNo, Widget(TextField, partialName, defaultValue, Pos(x + 4.0, top as real - 4.0), width as real - 8.0, height as real - 8.0))]
    {
      cursor := cursor.(y := cursor.y - 3 * leading);
      BreakIfFull(height as real);
      var x := cursor.x as real;
      var y := cursor.y;
      var yCurrent := y - ButtonSize - 2 * leading;
      content := content + [Mark(pageNo, Widget(TextField, partialName, defaultValue, Pos(x + 4.0, yCurrent as real - 4.0), width as real - 8.0, height as real - 8.0))];
      cursor := cursor.(y := yCurrent - 3 * leading);
    }

    /** `addListField`: a combo-box widget at the cursor; the cursor drops three
        leadings whatever the field's height. */
    method AddListField(partialName: string, defaultValue: string, width: int, height: int, options: seq<string>)
      modifies this`pageNo, this`pageWidth, this`cursor, this`content
      ensures var b := Break(Config(), old(Place()), height as real);
              var y := b.cursor.y;
              pageNo == b.pageNo && pageWidth == b.pageWidth &&
              cursor == Point(b.cursor.x, y - 3 * leading) &&
              content == old(content) + [Mark(b.pageNo, Widget(ComboBox(options), partialName, defaultValue, Pos(b.cursor.x as real, y as real), width as real, height as real))]
    {
      BreakIfFull(height as real);
      var x := cursor.x as real;
      var y := cursor.y;
      content := content + [Mark(pageNo, Widget(ComboBox(options), partialName, defaultValue, Pos(x, y as real), width as real, height as real))];
      cursor := cursor.(y := y - 3 * leading);
    }
  }

  /** Empty text needs no room beyond the margin, yet is drawn as one line, so the
      cursor still steps down once. */
  lemma EmptyTextOneLine(font: Font, regular: Font, width: real, fontSize: int)
    ensures TextHeight(regular, "", width, fontSize) == 0
    ensures |WrapLines(" ", width, Measured(font, fontSize))| == 1
  {
    WrapSpace(width, Measured(font, fontSize));
  }

  /** When the joined fragments fit on one line, `addColorText` draws exactly one line
      holding every fragment once, in order, in its own colour. */
  lemma ColorTextOneLine(fragments: seq<Fragment>, width: real, measure: Measure)
    requires fragments != []
    requires forall i :: 0 <= i < |fragments| ==> ',' !in fragments[i].0
    requires fragments[|fragments| - 1].0 != ""
    requires forall j, k :: 0 <= j < k < |fragments| ==> fragments[j].0 != fragments[k].0
    requires var joined := JoinFragments(fragments);
             measure(joined) <= width &&
             forall i :: 0 <= i < |joined| && joined[i] == ' ' ==> measure(joined[..i]) <= width
    ensures var rows := ColorRows(WrapLines(JoinFragments(fragments), width, measure), fragments);
            |rows| == 1 && |rows[0]| == |fragments| &&
            forall i :: 0 <= i < |fragments| ==> rows[0][i] == Run(fragments[i].0, Some(fragments[i].1))
  {
    var joined := JoinFragments(fragments);
    assert joined != [];
    WrapWhole(joined, -1, width, measure);
    ColorRunsRoundTrip(fragments);
  }
}
