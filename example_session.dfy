/** One page of a form laid out on A4 with the default margin and leading: where each
    item lands, worked out from the placement contracts alone. */
module ExampleSession {
  import opened JavaNumbers
  import opened Placement
  import opened ColorText
  import opened RoundRect
  import opened PdfGeneration

  /** A4 leaves 545 points between the margins and starts the cursor at (25, 791). */
  lemma A4Page()
    ensures FreshPage(Settings(A4Width, A4Height, 25.0, 10), 0) == Layout(0, 545, Point(25, 791))
  {
    assert 545.0 <= A4Width - 50.0 < 546.0;
    assert 791.0 <= A4Height - 50.0 < 792.0;
  }

  /** A fresh generator on A4. */
  method OpenA4(regular: Font, bold: Font, lineStep: int -> real) returns (g: PdfGenerator)
    ensures g.mediaWidth == A4Width && g.mediaHeight == A4Height
    ensures g.margin == 25.0 && g.leading == 10
    ensures g.Place() == Layout(0, 545, Point(25, 791)) && g.content == []
  {
    g := new PdfGenerator(A4Width, A4Height, regular, bold, lineStep);
    A4Page();
  }

  /** The two shapes of the sample session drawn on a fresh page: a right-aligned
      100 x 50 rectangle, then a centred 200 x 100 rectangle with corner radius 8, both
      black, one below the other. */
  method TwoShapes(g: PdfGenerator)
    requires g.mediaWidth == A4Width && g.mediaHeight == A4Height
    requires g.margin == 25.0 && g.leading == 10
    requires g.Place() == Layout(0, 545, Point(25, 791)) && g.content == []
    modifies g
    ensures g.Place() == Layout(0, 545, Point(172, 591))
    ensures g.content == [Mark(0, FillRect(Pos(470.0, 741.0), 100.0, 50.0, Rgb(0.0, 0.0, 0.0))),
                          Mark(0, FillPath(Add(Circular(8.0, false), Pos(172.0, 731.0), 200.0, 100.0), Rgb(0.0, 0.0, 0.0)))]
  {
    var black := Rgb(0.0, 0.0, 0.0);
    // the rectangle: room above 50 + 25, so no break; END puts it at 545 + 25 - 100
    assert !NoRoom(g.Config(), g.Place(), 50.0);
    TruncIntegral(470);
    assert ShapeX(End, 545, 25.0, 100) == 470;
    g.DrawRectangle(100, 50, black, End);
    assert g.Place() == Layout(0, 545, Point(470, 731));
    assert g.content == [Mark(0, FillRect(Pos(470.0, 741.0), 100.0, 50.0, black))];
    // the rounded rectangle: room above 100 + 25, no break; CENTER halves 545 - 200
    assert !NoRoom(g.Config(), g.Place(), 100.0);
    assert ShapeX(Center, 545, 25.0, 200) == 172;
    g.DrawRoundedRectangle(200, 100, 8, false, black, Center);
  }

  /** An image taller than the room left opens page 1 and is drawn at its top. */
  method TallImage(g: PdfGenerator)
    requires g.mediaWidth == A4Width && g.mediaHeight == A4Height
    requires g.margin == 25.0 && g.leading == 10
    requires g.Place() == Layout(0, 545, Point(172, 591))
    modifies g
    ensures g.Place() == Layout(1, 545, Point(25, 151))
    ensures g.content == old(g.content) + [Mark(1, Image(Pos(25.0, 191.0), 200.0, 600.0))]
  {
    A4Page();
    TruncIntegral(25);
    var r := g.InsertImage("logo.png", 200, 600, Start, true, true);
  }
}
