/** Where things land on the page: the x chosen by a `Gravity`, and the y reached
    after stepping down one text line at a time with a cast to `int` after each step. */
module Placement {
  import opened JavaNumbers

  datatype Gravity = Start | Center | End

  /** The x of an item `width` wide that is not text (image, line, rectangle, rounded
      rectangle): START at the margin, CENTER halfway across `pageWidth` with no margin
      term, END with its right edge at `pageWidth + margin`. */
  function ShapeX(gravity: Gravity, pageWidth: int, margin: real, width: int): (x: int)
    ensures gravity == Start ==> -1.0 < x as real - margin < 1.0
    ensures gravity == Center ==> -1 <= (pageWidth - x - width) - x <= 1
    ensures gravity == End ==> -1.0 < (x + width) as real - (pageWidth as real + margin) < 1.0
  {
    match gravity
    case Start => Trunc(margin)
    case Center => Halve(pageWidth - width)
    case End => Trunc(pageWidth as real + margin - width as real)
  }

  /** The x of a text block of measured width `width`: as `ShapeX`, except that END puts
      the right edge at `pageWidth - margin`, and CENTER casts before halving. */
  function TextX(gravity: Gravity, pageWidth: int, margin: real, width: real): (x: int)
    ensures gravity == Start ==> -1.0 < x as real - margin < 1.0
    ensures gravity == Center ==> -2.0 < (pageWidth as real - x as real - width) - x as real < 2.0
    ensures gravity == End ==> -1.0 < x as real + width - (pageWidth as real - margin) < 1.0
  {
    match gravity
    case Start => Trunc(margin)
    case Center => Halve(Trunc(pageWidth as real - width))
    case End => Trunc(pageWidth as real - margin - width)
  }

  /** With a whole-number margin and width every alignment is exact. */
  lemma AlignmentExact(pageWidth: int, margin: int, width: int)
    ensures ShapeX(Start, pageWidth, margin as real, width) == margin
    ensures ShapeX(End, pageWidth, margin as real, width) == pageWidth + margin - width
    ensures TextX(Start, pageWidth, margin as real, width as real) == margin
    ensures TextX(End, pageWidth, margin as real, width as real) == pageWidth - margin - width
    ensures 0 <= pageWidth - width ==>
              ShapeX(Center, pageWidth, margin as real, width) == (pageWidth - width) / 2 &&
              TextX(Center, pageWidth, margin as real, width as real) == (pageWidth - width) / 2
  {
    TruncIntegral(margin);
    TruncIntegral(pageWidth + margin - width);
    TruncIntegral(pageWidth - margin - width);
    TruncIntegral(pageWidth - width);
  }

  /** END for text lands two margins to the left of END for a shape of the same width. */
  lemma TextEndTwoMarginsLeft(pageWidth: int, margin: int, width: int)
    ensures ShapeX(End, pageWidth, margin as real, width) - TextX(End, pageWidth, margin as real, width as real) == 2 * margin
  {
    AlignmentExact(pageWidth, margin, width);
  }

  /** The y reached from `y` after `n` text lines of height `step`, each step cast to
      `int` as the drawing loop does. */
  function StepDown(y: int, step: real, n: nat): int {
    if n == 0 then y else Trunc(StepDown(y, step, n - 1) as real - step)
  }

  /** A whole-number step is taken exactly, `n` times. */
  lemma {:induction false} StepDownIntegral(y: int, step: int, n: nat)
    ensures StepDown(y, step as real, n) == y - n * step
  {
    if n > 0 {
      StepDownIntegral(y, step, n - 1);
      TruncIntegral(y - (n - 1) * step - step);
    }
  }

  /** Above the page origin a fractional step costs its ceiling on every line. */
  lemma {:induction false} StepDownAbove(y: int, step: real, n: nat)
    requires 0.0 <= step
    requires n * Ceil(step) <= y
    ensures StepDown(y, step, n) == y - n * Ceil(step)
  {
    if n > 0 {
      var c := Ceil(step);
      assert 0 <= c;
      assert (n - 1) * c <= y by {
        assert (n - 1) * c == n * c - c;
      }
      StepDownAbove(y, step, n - 1);
      var k := y - (n - 1) * c;
      assert step <= c as real <= k as real;
      TruncBelowInteger(k, step);
      assert k - c == y - n * c;
    }
  }

  /** A non-negative step never moves the cursor up. */
  lemma {:induction false} StepDownNonIncreasing(y: int, step: real, n: nat)
    requires 0.0 <= step
    ensures StepDown(y, step, n) <= y
  {
    if n > 0 {
      StepDownNonIncreasing(y, step, n - 1);
    }
  }
}
