# PDFMaster layout engine in Dafny

PDFMaster's `PDFGenerationUtils` builds a PDF page by page, placing one item after another
down the page like a flow layout. It keeps a cursor (`currentPoint`), a page counter
(`pageNo`) and the writable width (`pageWidth`). Every placement works the same way:

- a room test (`currentPoint.y <= required + MARGIN`) that opens a fresh A4 page when it fails;
- an x chosen by a `Gravity` (START, CENTER, END);
- the drawing itself;
- a drop of the cursor by a fixed amount built from the item's height and `leading`.

Text is broken into lines by a greedy word wrap, which the class carries three copies of.
Rounded rectangles are drawn by `RoundRect` as an eight-point Bezier path.

This project models that engine:

- `java_numbers.dfy` (`JavaNumbers`): Java's `(int)` cast of a float (truncation toward
  zero) and `int / 2`.
- `java_strings.dfy` (`JavaStrings`): the parts of `String` the engine relies on: `trim`,
  `indexOf`, `contains`, `split(",")` (trailing empty pieces dropped), `replaceAll(",", "")`,
  and the ","-terminated join.
- `word_wrap.dfy` (`WordWrap`): the wrap loop. `WrapLines` is its specification by
  recursion, and `Wrap` is the loop itself, proved equal to it. The lemmas show that the wrap
  loses no non-blank character and keeps their order, that every line fits or is a single
  word, and when exactly one line comes out.
- `placement.dfy` (`Placement`): the gravity arithmetic (which differs between text and
  shapes) and the cursor's step-by-step descent with a cast after each line.
- `color_text.dfy` (`ColorText`): `getColor`, and the join / split / lookup round trip of
  `addColorText`.
- `round_rect.dfy` (`RoundRect`): the eight points and the path, with its geometry: the
  corners it visits, the arc count, where the control points lie, symmetry, and containment.
- `pdf_generator.dfy` (`PdfGeneration`): the generator as a class. It has the page state and
  a record `content` of everything drawn, each item tagged with its page. Every public
  operation is a method whose postcondition gives the new page state and the marks appended,
  in terms of the room test `Break`, the gravity functions and the wrap specification.
- `example_session.dfy` (`ExampleSession`): the A4 page and two shapes of the sample session,
  worked out from the contracts alone, followed by an image that forces a page break.

Floats are exact reals. Font metrics are parameters: a `Font` holds a string-width function
and a cap height. The float line step `1.2f * fontSize` is the generator's `lineStep` function.
External outcomes of `insertImage` are boolean parameters: whether a remote image could be
fetched, and whether the file could be read.

## Model

Paths are relative to the repository root.

| member | source | states |
|---|---|---|
| JavaNumbers.Trunc | src/com/pramod/pdfmaster/PDFGenerationUtils.java:105-107 | The `(int)` cast truncates toward zero: for a non-negative value it is the floor, for a negative one the ceiling. |
| JavaNumbers.Halve | src/com/pramod/pdfmaster/PDFGenerationUtils.java:163 | Java's `int / 2`: the remainder is 0 or 1 for a non-negative value and 0 or -1 for a negative one. |
| JavaNumbers.TruncIntegral | src/com/pramod/pdfmaster/PDFGenerationUtils.java:106 | Casting a whole number leaves it unchanged. |
| JavaNumbers.TruncBelowInteger | src/com/pramod/pdfmaster/PDFGenerationUtils.java:336 | `(int)(y - s)` for an integer `y >= s >= 0` is `y` minus the ceiling of `s`. |
| JavaNumbers.TruncAboveInteger | src/com/pramod/pdfmaster/PDFGenerationUtils.java:336 | `(int)(y - s)` for an integer `y < s` is `y` minus the floor of `s` (the cast rounds toward zero). |
| JavaStrings.Trim | src/com/pramod/pdfmaster/PDFGenerationUtils.java:246 | `trim` returns no longer a string that neither starts nor ends with a char `<= ' '`, and is strictly shorter when the input starts with one. |
| JavaStrings.StripTrim | src/com/pramod/pdfmaster/PDFGenerationUtils.java:246 | Trimming removes only blank characters: the non-blank characters of `trim(s)` are those of `s`, in order. |
| JavaStrings.Contains | src/com/pramod/pdfmaster/PDFGenerationUtils.java:174 | Definition: `contains` as a prefix test at each position; what it means is `ContainsOccurs`. |
| JavaStrings.ContainsOccurs | src/com/pramod/pdfmaster/PDFGenerationUtils.java:174 | `s.contains(sub)` holds exactly when `sub` occurs in `s` at some index. |
| JavaStrings.IndexOf | src/com/pramod/pdfmaster/PDFGenerationUtils.java:231 | `indexOf(c, from)` is -1 or an index at or after `from` holding `c`, and no earlier index from `from` holds `c`. |
| JavaStrings.Pieces | src/com/pramod/pdfmaster/PDFGenerationUtils.java:427 | There is at least one piece, and no piece holds ",". |
| JavaStrings.Split | src/com/pramod/pdfmaster/PDFGenerationUtils.java:427 | `split(",")` yields pieces free of ","; a string without "," is its own single piece. |
| JavaStrings.DropTrailingEmpty | src/com/pramod/pdfmaster/PDFGenerationUtils.java:427 | `split` drops exactly the trailing empty pieces: the result is a prefix, ends in a non-empty piece, and everything dropped is empty. |
| JavaStrings.Interleave | src/com/pramod/pdfmaster/PDFGenerationUtils.java:427 | Definition: pieces put back together with "," between neighbours. |
| JavaStrings.PiecesRejoin | src/com/pramod/pdfmaster/PDFGenerationUtils.java:427 | For every string, its pieces between occurrences of "," rejoin with "," to the string itself. |
| JavaStrings.PiecesUnique | src/com/pramod/pdfmaster/PDFGenerationUtils.java:427 | Conversely, any ","-free pieces are the pieces of their own rejoining, so the cut at every "," is unique. |
| JavaStrings.SplitRejoin | src/com/pramod/pdfmaster/PDFGenerationUtils.java:427 | `split(",")` is the string itself when "," does not occur, and otherwise a prefix of the pieces (which rejoin to the string) that drops exactly the trailing empty ones. |
| JavaStrings.Erase | src/com/pramod/pdfmaster/PDFGenerationUtils.java:431 | `replaceAll(",", "")` leaves no ",", and leaves a string without "," unchanged. |
| JavaStrings.JoinTerminatedSnoc | src/com/pramod/pdfmaster/PDFGenerationUtils.java:360-361 | Each step of the join appends the key and its ",". |
| JavaStrings.IndexOfAfter | src/com/pramod/pdfmaster/PDFGenerationUtils.java:427 | In a piece free of `c` followed by `c`, the first `c` is at the piece's length. |
| JavaStrings.PiecesCons | src/com/pramod/pdfmaster/PDFGenerationUtils.java:427 | A ","-free piece followed by "," comes off the front of the split as the first piece. |
| JavaStrings.PiecesOfJoin | src/com/pramod/pdfmaster/PDFGenerationUtils.java:427 | Splitting a ","-terminated join of ","-free keys, keeping empties, gives the keys and one trailing empty piece. |
| JavaStrings.SplitJoin | src/com/pramod/pdfmaster/PDFGenerationUtils.java:359-364 | `split(",")` undoes the join of `addColorText` when the keys hold no "," and the last key is non-empty. |
| WordWrap.NextBreak | src/com/pramod/pdfmaster/PDFGenerationUtils.java:231-233 | The next break is after `lastSpace`, and is a space or the end of the text. |
| WordWrap.CutAt | src/com/pramod/pdfmaster/PDFGenerationUtils.java:242-244 | The cut is at the last space that fitted when there is one. |
| WordWrap.CutShrinks | src/com/pramod/pdfmaster/PDFGenerationUtils.java:246 | The trimmed rest after a cut is strictly shorter than the text, so the loop terminates. |
| WordWrap.UnfoldCut | src/com/pramod/pdfmaster/PDFGenerationUtils.java:241-247 | An over-wide prefix emits the line up to the cut and wraps the trimmed rest afresh. |
| WordWrap.UnfoldLast | src/com/pramod/pdfmaster/PDFGenerationUtils.java:248-250 | A fitting prefix that reaches the end of the text emits the whole rest as the last line. |
| WordWrap.UnfoldAdvance | src/com/pramod/pdfmaster/PDFGenerationUtils.java:251-253 | A fitting prefix that ends at a space moves `lastSpace` to it and emits nothing. |
| WordWrap.WrapFrom | src/com/pramod/pdfmaster/PDFGenerationUtils.java:228-254 | Definition: the lines the loop still emits from a state (text, lastSpace), one equation per branch of the loop body. |
| WordWrap.WrapLines | src/com/pramod/pdfmaster/PDFGenerationUtils.java:228-254 | Definition: the lines the loop emits from the start state; its properties are the lemmas below. |
| WordWrap.Wrap | src/com/pramod/pdfmaster/PDFGenerationUtils.java:228-254 | The wrap loop computes exactly the lines of the recursive wrap specification `WrapLines`. |
| WordWrap.WrapStep | src/com/pramod/pdfmaster/PDFGenerationUtils.java:231-253 | One loop pass keeps the loop state valid, makes progress (shorter text, or a later `lastSpace`), and what it emits followed by what remains to emit equals what remained before. |
| WordWrap.NextBreakFirst | src/com/pramod/pdfmaster/PDFGenerationUtils.java:231 | No space lies strictly between `lastSpace` and the next break. |
| WordWrap.StripCut | src/com/pramod/pdfmaster/PDFGenerationUtils.java:244-246 | Cutting a line off and keeping the trimmed rest loses no non-blank character. |
| WordWrap.WrapKeepsText | src/com/pramod/pdfmaster/PDFGenerationUtils.java:228-254 | The lines together hold exactly the text's non-blank characters, in order: nothing lost, duplicated or reordered. |
| WordWrap.CutLineFits | src/com/pramod/pdfmaster/PDFGenerationUtils.java:241-245 | A line emitted by a cut was measured within the width, or is a single word. |
| WordWrap.FitsCons | src/com/pramod/pdfmaster/PDFGenerationUtils.java:245 | A fitting line in front of fitting lines gives fitting lines. |
| WordWrap.WrapLinesFit | src/com/pramod/pdfmaster/PDFGenerationUtils.java:228-254 | Every wrapped line fits the width, unless it is a single word longer than the width (the greedy rule's one exception). |
| WordWrap.WrapEmpty | src/com/pramod/pdfmaster/PDFGenerationUtils.java:230 | The wrap yields no line exactly when the text is empty. |
| WordWrap.WrapWhole | src/com/pramod/pdfmaster/PDFGenerationUtils.java:248-250 | Text whose whole and every space-ended prefix fit comes out as one line, unchanged. |
| WordWrap.WrapSpace | src/com/pramod/pdfmaster/PDFGenerationUtils.java:298-299 | The single space that stands in for empty text is wrapped into exactly one line at any width. |
| Placement.ShapeX | src/com/pramod/pdfmaster/PDFGenerationUtils.java:160-164 | For a shape: START is within a point of the margin, CENTER leaves equal room on both sides within a point, END puts the right edge within a point of `pageWidth + MARGIN`. |
| Placement.TextX | src/com/pramod/pdfmaster/PDFGenerationUtils.java:289-293 | For text: START at the margin, CENTER balanced within two points, END puts the right edge within a point of `pageWidth - MARGIN`. |
| Placement.AlignmentExact | src/com/pramod/pdfmaster/PDFGenerationUtils.java:160-164 | With a whole margin and width, every gravity lands exactly; CENTER is `(pageWidth - width) / 2` for both kinds. |
| Placement.TextEndTwoMarginsLeft | src/com/pramod/pdfmaster/PDFGenerationUtils.java:290 | END-aligned text lands exactly two margins left of an END-aligned shape of the same width. |
| Placement.StepDown | src/com/pramod/pdfmaster/PDFGenerationUtils.java:333-337 | Definition: the y after `n` lines, cast to `int` after each step. |
| Placement.StepDownIntegral | src/com/pramod/pdfmaster/PDFGenerationUtils.java:333-337 | With a whole step, `n` lines lower the cursor by exactly `n` steps. |
| Placement.StepDownAbove | src/com/pramod/pdfmaster/PDFGenerationUtils.java:336 | While above the origin, each line with a fractional step costs the step's ceiling, because of the cast. |
| Placement.StepDownNonIncreasing | src/com/pramod/pdfmaster/PDFGenerationUtils.java:336 | Drawing lines never moves the cursor up. |
| ColorText.ColorOf | src/com/pramod/pdfmaster/PDFGenerationUtils.java:617-627 | Definition: `getColor` divides three components by 255, and gives black for a missing array or one of another length; its range is `ColorOfInRange`. |
| ColorText.ColorOfInRange | src/com/pramod/pdfmaster/PDFGenerationUtils.java:619-621 | Components within 0..255 give a colour within 0..1. |
| ColorText.Keys | src/com/pramod/pdfmaster/PDFGenerationUtils.java:360 | The map's keys in iteration order. |
| ColorText.Lookup | src/com/pramod/pdfmaster/PDFGenerationUtils.java:430 | `text.get(s)` is null exactly when no fragment has text `s`, and otherwise the colour of a fragment with that text. |
| ColorText.LookupDistinct | src/com/pramod/pdfmaster/PDFGenerationUtils.java:430 | With distinct keys, looking up a key gives that key's own colour. |
| ColorText.JoinFragments | src/com/pramod/pdfmaster/PDFGenerationUtils.java:359-364 | Definition: every fragment text followed by ","; `SplitJoin` and `Join` state its meaning. |
| ColorText.ColorRuns | src/com/pramod/pdfmaster/PDFGenerationUtils.java:427-432 | A drawn line yields one run per piece of its split on ",". |
| ColorText.ColorRunsPieces | src/com/pramod/pdfmaster/PDFGenerationUtils.java:427-431 | Each run is its piece unchanged (a split piece holds no ","), coloured by the piece's lookup. |
| ColorText.ColorRunsRoundTrip | src/com/pramod/pdfmaster/PDFGenerationUtils.java:359-432 | Joining the fragments and splitting the result gives back every fragment once, in order, in its own colour, given ","-free, distinct texts and a non-empty last one. |
| RoundRect.Circular | src/com/pramod/pdfmaster/RoundRect.java:19-32 | Definition: the one-radius constructor, the radius on both axes; what that means for the outline is `CircularCornersEven`. |
| RoundRect.CircularCornersEven | src/com/pramod/pdfmaster/RoundRect.java:19-32 | With one radius, every rounded corner is cut back by that radius along both of its sides (a quarter circle), and with only the top rounded the bottom corners are the rectangle's own. |
| RoundRect.Corners | src/com/pramod/pdfmaster/RoundRect.java:66-86 | The eight points lie on the four edges, each inset by a radius; with top-only the bottom ones reach the sharp corners. |
| RoundRect.RoundRectPath | src/com/pramod/pdfmaster/RoundRect.java:63-114 | The path starts at `a`, has eight segments, and closes by returning to `a`. |
| RoundRect.Add | src/com/pramod/pdfmaster/RoundRect.java:34-38 | `add` draws the eight-segment path from one radius in from the upper left corner. |
| RoundRect.Line | src/com/pramod/pdfmaster/RoundRect.java:121-126 | Definition: a straight edge as a one-control curve through the midpoint; `StraightEdgesAtMidpoint` states it for the path. |
| RoundRect.Ends | src/com/pramod/pdfmaster/RoundRect.java:91-113 | The points each segment ends at, in drawing order. |
| RoundRect.PathVisitsCorners | src/com/pramod/pdfmaster/RoundRect.java:91-113 | The path moves to `a` and visits b, c, d, e, f, g, h and back to a, clockwise. |
| RoundRect.StraightEdgesAtMidpoint | src/com/pramod/pdfmaster/RoundRect.java:121-126 | Every one-control segment is a straight edge, with its control point at the midpoint of its ends. |
| RoundRect.ArcCount | src/com/pramod/pdfmaster/RoundRect.java:91-113 | The path has four cubic arcs, or two when only the top is rounded. |
| RoundRect.CurveCountFrom | src/com/pramod/pdfmaster/RoundRect.java:91-113 | The arc count of a suffix unfolds one segment at a time. |
| RoundRect.ArcControlsTowardCorner | src/com/pramod/pdfmaster/RoundRect.java:88-113 | Each arc's control points are the fraction `BEZ` of the way from its ends toward the rectangle's true corner. |
| RoundRect.CornersSymmetric | src/com/pramod/pdfmaster/RoundRect.java:66-86 | With all corners rounded the points mirror across both centre lines of the rectangle. |
| RoundRect.PathInsideRectangle | src/com/pramod/pdfmaster/RoundRect.java:63-114 | When each radius is at most half the side, every point and control point of the path lies in the rectangle. |
| RoundRect.ExampleOutline | src/com/pramod/pdfmaster/Example.java:48-49 | The sample 200 x 100 rectangle with radius 8 has straight sides of 184 and 84 and its bottom points where expected. |
| PdfGeneration.BlockHeight | src/com/pramod/pdfmaster/PDFGenerationUtils.java:255-256 | Definition: the line count times the cap height / 1000 × font size, before the cast; its sign is `BlockHeightNonNegative`. |
| PdfGeneration.BlockHeightNonNegative | src/com/pramod/pdfmaster/PDFGenerationUtils.java:255-256 | With a non-negative line height, a block of lines has a non-negative height. |
| PdfGeneration.TextWidth | src/com/pramod/pdfmaster/PDFGenerationUtils.java:276-277 | Definition: the string width in thousandths times the font size. |
| PdfGeneration.TextHeight | src/com/pramod/pdfmaster/PDFGenerationUtils.java:225-257 | `getHeightOfText` is 0 for empty text, and otherwise the whole part of the wrapped line count times the cap height. |
| PdfGeneration.FreshPage | src/com/pramod/pdfmaster/PDFGenerationUtils.java:103-108 | A fresh page has the media width less two margins cast toward zero (the floor when that span is non-negative, the ceiling when it is negative), and the cursor within a point of the margin, two margins below the top. |
| PdfGeneration.NoRoom | src/com/pramod/pdfmaster/PDFGenerationUtils.java:153 | Definition: the room test, cursor y at or below the required height plus the margin. |
| PdfGeneration.Break | src/com/pramod/pdfmaster/PDFGenerationUtils.java:153-156 | The room test opens the next page, freshly laid out, exactly when the cursor is at or below the required height plus the margin, and otherwise changes nothing. |
| PdfGeneration.RoomAfterBreak | src/com/pramod/pdfmaster/PDFGenerationUtils.java:153-156 | If a fresh page has room for the item, there is room for it after the test. |
| PdfGeneration.ItemAboveMargin | src/com/pramod/pdfmaster/PDFGenerationUtils.java:504-509 | An item that fits on a fresh page ends above the bottom margin once placed. |
| PdfGeneration.TextBlock | src/com/pramod/pdfmaster/PDFGenerationUtils.java:330-337 | One mark per line of the block. |
| PdfGeneration.TextBlockLines | src/com/pramod/pdfmaster/PDFGenerationUtils.java:330-337 | Every line is on the block's page at its x, in its font, with its own row; the first is `skip` steps below the top and each next one exactly one step lower. |
| PdfGeneration.TextBlockSnoc | src/com/pramod/pdfmaster/PDFGenerationUtils.java:333-337 | Each loop pass appends one line, one step further down. |
| PdfGeneration.ButtonOffset | src/com/pramod/pdfmaster/PDFGenerationUtils.java:666-677 | Definition: the x advance of button `n`, the widths of the earlier labels plus six leadings each. |
| PdfGeneration.ButtonMarks | src/com/pramod/pdfmaster/PDFGenerationUtils.java:678-724 | Definition: the widget and the label of one button. |
| PdfGeneration.RadioMarks | src/com/pramod/pdfmaster/PDFGenerationUtils.java:666-729 | Each button contributes a widget and a label. |
| PdfGeneration.RadioMarksAt | src/com/pramod/pdfmaster/PDFGenerationUtils.java:649-729 | Button `k` is a widget of the group whose on value is the button's value and the `k`-th export value, with the button's label 25 points right of it and `ButtonOffset` from the row start. |
| PdfGeneration.ButtonsLeftToRight | src/com/pramod/pdfmaster/PDFGenerationUtils.java:666-677 | Buttons advance left to right; when six leadings exceed 25 points, each label ends before the next button. |
| PdfGeneration.Join | src/com/pramod/pdfmaster/PDFGenerationUtils.java:359-364 | The joining loop builds every fragment's text followed by ",", in order. |
| PdfGeneration.SplitRuns | src/com/pramod/pdfmaster/PDFGenerationUtils.java:427-432 | The inner drawing loop produces the runs of `ColorRuns`. |
| PdfGeneration.EmptyTextOneLine | src/com/pramod/pdfmaster/PDFGenerationUtils.java:282-299 | Empty text needs no room, yet is drawn as one line, so the cursor still steps down once. |
| PdfGeneration.ColorTextOneLine | src/com/pramod/pdfmaster/PDFGenerationUtils.java:356-432 | When the joined fragments fit on one line, `addColorText` draws one line holding every fragment once, in order, in its own colour. |
| PdfGeneration.PdfGenerator.constructor | src/com/pramod/pdfmaster/PDFGenerationUtils.java:75-98 | A new generator has margin 25, leading 10, page 0 freshly laid out, and nothing drawn. |
| PdfGeneration.PdfGenerator.SetMargin | src/com/pramod/pdfmaster/PDFGenerationUtils.java:53-55 | Sets the margin and nothing else. |
| PdfGeneration.PdfGenerator.SetLeading | src/com/pramod/pdfmaster/PDFGenerationUtils.java:62-64 | Sets the leading and nothing else. |
| PdfGeneration.PdfGenerator.AddNewPage | src/com/pramod/pdfmaster/PDFGenerationUtils.java:128-133 | Advances the page counter by one. |
| PdfGeneration.PdfGenerator.InitDrawingPoints | src/com/pramod/pdfmaster/PDFGenerationUtils.java:103-108 | Lays the current page out fresh. |
| PdfGeneration.PdfGenerator.BreakIfFull | src/com/pramod/pdfmaster/PDFGenerationUtils.java:153-156 | Performs the room test `Break` on the page state. |
| PdfGeneration.PdfGenerator.HeightOfText | src/com/pramod/pdfmaster/PDFGenerationUtils.java:225-257 | Computes `TextHeight`, always with the regular font. |
| PdfGeneration.PdfGenerator.AddText | src/com/pramod/pdfmaster/PDFGenerationUtils.java:267-348 | Room test on the regular-font height at the old width. Then the x from `TextX`, the wrapped lines (a space for empty text) one line step apart from the cursor down, and the cursor left one leading below the last step. |
| PdfGeneration.PdfGenerator.ShowLines | src/com/pramod/pdfmaster/PDFGenerationUtils.java:330-337 | The drawing loop appends each line on its baseline and leaves y where `StepDown` puts it. |
| PdfGeneration.PdfGenerator.AddColorText | src/com/pramod/pdfmaster/PDFGenerationUtils.java:356-444 | Placed and wrapped like `addText` on the joined text. Each line is drawn one step lower (the first one step below the cursor) as the coloured runs of its pieces. |
| PdfGeneration.PdfGenerator.ShowColorLines | src/com/pramod/pdfmaster/PDFGenerationUtils.java:422-434 | The drawing loop appends line `i` on the baseline `i + 1` steps down, as its runs. |
| PdfGeneration.PdfGenerator.InsertImage | src/com/pramod/pdfmaster/PDFGenerationUtils.java:151-223 | Returns 0 after the room test and gravity. An empty location or a failed download stops there; otherwise the image is drawn (if readable) hanging from the cursor, and the cursor drops by the height and four leadings. |
| PdfGeneration.PdfGenerator.DrawLines | src/com/pramod/pdfmaster/PDFGenerationUtils.java:450-485 | A horizontal stroke of the given width at the cursor; the cursor moves to its right end and two leadings down. |
| PdfGeneration.PdfGenerator.MoveToNextLine | src/com/pramod/pdfmaster/PDFGenerationUtils.java:490-493 | Back to the margin and one leading down, with no room test. |
| PdfGeneration.PdfGenerator.DrawRectangle | src/com/pramod/pdfmaster/PDFGenerationUtils.java:502-539 | A filled rectangle hanging from the cursor at the gravity's x; the cursor ends one leading below it. |
| PdfGeneration.PdfGenerator.DrawRoundedRectangle | src/com/pramod/pdfmaster/PDFGenerationUtils.java:549-587 | The `RoundRect` path hanging from the cursor, filled; the cursor ends four leadings below it. |
| PdfGeneration.PdfGenerator.AddRadioButtons | src/com/pramod/pdfmaster/PDFGenerationUtils.java:637-743 | A row of 15-point widgets of one group with their labels, starting ten points right of the cursor and spaced by the previous label's width plus six leadings. The cursor drops by 15 and two leadings. |
| PdfGeneration.PdfGenerator.AddCheckBox | src/com/pramod/pdfmaster/PDFGenerationUtils.java:803-879 | An 18-point checkbox widget at the cursor, its default value written beside it; the cursor drops by 15 and two leadings. |
| PdfGeneration.PdfGenerator.AddTextField | src/com/pramod/pdfmaster/PDFGenerationUtils.java:890-954 | Three leadings down, then the room test. The padded widget hangs 15 points and two leadings lower, and the cursor ends three leadings below that. |
| PdfGeneration.PdfGenerator.AddListField | src/com/pramod/pdfmaster/PDFGenerationUtils.java:966-1023 | A combo-box widget at the cursor with the options; the cursor drops three leadings whatever the height. |
| ExampleSession.A4Page | src/com/pramod/pdfmaster/PDFGenerationUtils.java:103-108 | On A4 with margin 25 the writable width is 545 and the cursor starts at (25, 791). |
| ExampleSession.OpenA4 | src/com/pramod/pdfmaster/Example.java:25-26 | A new generator on A4 starts at (25, 791) on page 0 with nothing drawn. |
| ExampleSession.TwoShapes | src/com/pramod/pdfmaster/Example.java:46-49 | From a fresh A4 page, the two shape calls of the sample land at x 470 (right edge on the right margin) and at x 172 (centred on 0..545, not on the writable span 25..570), one below the other; the cursor ends at y 591. |
| ExampleSession.TallImage | src/com/pramod/pdfmaster/PDFGenerationUtils.java:151-223 | A 600-point image that no longer fits opens page 1 and is drawn at its top. |

## Left out

- PDFBox content streams, fonts and documents are not modelled. Drawing is recorded as
  abstract marks (`Item`) with their page.
- AcroForm dictionaries, border styles and appearance streams are not modelled. This covers
  `createRadioButtonAppearanceStream`, `getLineWidth` and `drawCircle` (lines 744-793 of
  `PDFGenerationUtils.java`), and the radio group's `setValue`. The widget records the field
  kind, name, value and rectangle only.
- The checkbox's hand-built COS dictionary (a 20-point rectangle that is never attached) is
  not recorded. Nor are the default-appearance strings, or the font resources `addTextField`
  and `addListField` install.
- The constructor's file path, empty document and form resources are not modelled.
  `createEmptyPDF` is not part of this model.
- `savePdf`, `deleteTempFiles` and `setREPORT_STORAGE_TEMP_IMAGE_FOLDER` are not modelled:
  file I/O only.
- `insertImage`'s download, temp-file cache and hash-named file are replaced by the
  parameter `fetched`: the cached or downloaded file is available. Reading and encoding the
  image is replaced by `readable`.
- A failure to create the cache file, or a local file that cannot be read, falls into the
  outer `catch` and the cursor is still lowered: that is `readable` false. A malformed URL
  throws before the file is chosen, so the handler's use of the file fails in turn and the
  call ends with the cursor not lowered: that is `fetched` false.
- Font metrics (`getStringWidth`, `getCapHeight` of Helvetica and Helvetica Bold) are
  parameters of the generator.
- Floats are exact reals, so IEEE rounding is not modelled. The text line step
  `1.2f * fontSize` is the parameter `lineStep`, whose float value is taken as given.
- 32-bit `int` overflow of the cursor and widths is not modelled; integers are unbounded.
- `IOException`s other than `insertImage`'s download failure are not modelled. PDFBox's
  in-memory streams do not raise them in normal use.
- Console output (`System.out.println`, `printStackTrace`) is not modelled.
- `addColorText` takes a `HashMap`. The model takes the fragments as a sequence in the map's
  iteration order, and the lookup returns the first match. For a map the keys are distinct,
  which `ColorRunsRoundTrip` assumes.
- The `LinkedHashMap` of radio buttons is a sequence of (label, value) pairs.
- `null` strings, arrays and colours are not modelled, except the null array of `getColor`.
- `imageUrl == ""` compares references in Java. The model compares contents, which agrees
  for the literal empty string.
- The `Position` class is not part of this model. Positions are the `Pos` datatype.
- `RoundRect`'s floats are exact reals, including `BEZ`.
- `PdfGeneration.PdfGenerator.PageWidth`: the getter has no contract beyond returning the field.
- `JavaStrings.Trim` states bounds and blank-free ends, not the exact substring.
  `StripTrim` adds that only blanks are removed.
- `JavaStrings.JoinTerminated` states only a length bound. Its meaning is given by
  `JoinTerminatedSnoc` and `SplitJoin`.
- `JavaStrings.Split`: its own contract gives only ","-free pieces and the no-"," case. The
  content and order of the pieces are in `SplitRejoin`, `PiecesRejoin` and `PiecesUnique`.
- `PdfGeneration.PdfGenerator.AddColorText`: the contract describes the state the method
  reaches only when every piece of every drawn line is a fragment text, as in
  `ColorTextOneLine`. A wrap cut falls at a space inside a fragment, so once the joined text
  wraps some piece is not a key. `get` then returns null, and the colour call fails with an
  unchecked exception that escapes the method, leaving the cursor's y unchanged. The model
  records such a piece with `None` and carries on, so it does not capture that abort.
- `ColorText.ColorRuns`: its own contract gives only the number of runs. The content of each
  run is in `ColorRunsPieces`.
- `PdfGeneration.RadioMarks` states the count of marks. Their content is in `RadioMarksAt`,
  their spacing in `ButtonsLeftToRight`.
- `addListField` passes the default value to `setValue` only when it is non-empty. The model
  records it either way, which is the same value.
