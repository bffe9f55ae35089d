/**
 * The window's aspect-ratio lock: the resize handler `enforce_aspect_ratio`
 * keeps the window at 400:600 by shrinking whichever dimension is too large.
 *
 * The handler computes with doubles; this model uses exact integers
 * (`width / height > 2/3` is `3 * width > 2 * height`, `height * 2/3` is
 * `(2 * height) / 3`, `width / (2/3)` is `(3 * width) / 2`).
 */
module Aspect {
  import opened Wrappers

  const InitialWidth := 400
  const InitialHeight := 600

  /** A window size in logical units. */
  datatype Size = Size(width: int, height: int)

  /** True when the size is exactly InitialWidth : InitialHeight. */
  predicate IsTargetRatio(s: Size) {
    s.width * InitialHeight == s.height * InitialWidth
  }

  /** Python's `int(n / d)` for a positive divisor: the quotient truncated toward zero. */
  function TruncDiv(n: int, d: int): (q: int)
    requires d > 0
    ensures n >= 0 ==> q * d <= n < q * d + d
    ensures n < 0 ==> q * d - d < n <= q * d
  {
    if n >= 0 then n / d else -((-n) / d)
  }

  /**
   * The size the resize handler assigns to the window, or None when it
   * leaves the window alone (the size is already exactly 2:3).
   * Too wide: the width becomes the largest width whose 2:3 height does not
   * exceed the height. Too tall: the height becomes the 3:2 multiple of the
   * width, truncated. The other dimension is kept.
   */
  function Snap(width: int, height: int): (r: Option<Size>)
    requires height > 0
    ensures r.None? <==> IsTargetRatio(Size(width, height))
    ensures 3 * width > 2 * height ==>
      r.Some? && r.value.height == height &&
      3 * r.value.width <= 2 * height < 3 * r.value.width + 3 &&
      r.value.width < width
    ensures 3 * width < 2 * height ==>
      r.Some? && r.value.width == width && r.value.height < height &&
      (width >= 0 ==> 2 * r.value.height <= 3 * width < 2 * r.value.height + 2) &&
      (width < 0 ==> 3 * width <= 2 * r.value.height < 3 * width + 2)
  {
    if 3 * width > 2 * height then
      Some(Size(TruncDiv(height * InitialWidth, InitialHeight), height))
    else if 3 * width < 2 * height then
      Some(Size(width, TruncDiv(width * InitialHeight, InitialWidth)))
    else
      None
  }

  /**
   * The size the window ends at when every size the handler assigns is
   * delivered back to it as a new resize, for at most `fuel` corrections.
   * It stops at a height of zero or less, where the handler's `width / height`
   * would raise ZeroDivisionError instead of assigning a size.
   */
  function Settle(s: Size, fuel: nat): (t: Size)
    ensures t.width <= s.width && t.height <= s.height
    decreases fuel
  {
    if fuel == 0 || s.height <= 0 then s
    else match Snap(s.width, s.height)
      case None => s
      case Some(next) => Settle(next, fuel - 1)
  }

  /** A size that is already 2:3 is a fixed point of the handler. */
  lemma SettleAtTarget(s: Size, fuel: nat)
    requires s.height > 0 && IsTargetRatio(s)
    ensures Settle(s, fuel) == s
  {
  }

  /**
   * Fed back into itself, the handler reaches an exact 2:3 size, which it
   * then leaves alone, after at most four corrections (any budget of four or
   * more gives the same size); the final size is
   * positive and no larger than the starting one in either dimension.
   */
  lemma SettleReachesTarget(width: int, height: int, fuel: nat)
    requires width >= 2 && height >= 3 && fuel >= 4
    ensures var t := Settle(Size(width, height), fuel);
      IsTargetRatio(t) && 0 < t.width <= width && 0 < t.height <= height &&
      Snap(t.width, t.height).None?
  {
    var s := Size(width, height);
    if 3 * width < 2 * height {
      TallThenSettle(width, height, fuel);
    } else if 3 * width > 2 * height {
      var w1 := Snap(width, height).value.width;
      assert w1 >= 2;
      if 3 * w1 == 2 * height {
        SettleStep(s, Size(w1, height), fuel);
        SettleAtTarget(Size(w1, height), fuel - 1);
      } else {
        assert 3 * w1 < 2 * height;
        SettleStep(s, Size(w1, height), fuel);
        TallThenSettle(w1, height, fuel - 1);
      }
    } else {
      SettleAtTarget(s, fuel);
    }
  }

  /** From a too-tall size of width at least 2, three corrections suffice. */
  lemma TallThenSettle(width: int, height: int, fuel: nat)
    requires width >= 2 && height > 0 && 3 * width < 2 * height && fuel >= 3
    ensures var t := Settle(Size(width, height), fuel);
      IsTargetRatio(t) && 0 < t.width <= width && 0 < t.height < height &&
      Snap(t.width, t.height).None?
  {
    var h1 := Snap(width, height).value.height;
    assert 2 * h1 <= 3 * width < 2 * h1 + 2;
    assert Settle(Size(width, height), fuel) == Settle(Size(width, h1), fuel - 1);
    if width % 2 == 0 {
      assert 2 * h1 == 3 * width;
      SettleAtTarget(Size(width, h1), fuel - 1);
    } else {
      var k := width / 2;
      assert width == 2 * k + 1 && h1 == 3 * k + 1;
      OddTallStep(k, fuel - 1);
    }
  }

  /** One correction: a size the handler changes settles as the size it assigns. */
  lemma SettleStep(s: Size, t: Size, fuel: nat)
    requires s.height > 0 && fuel > 0 && Snap(s.width, s.height) == Some(t)
    ensures Settle(s, fuel) == Settle(t, fuel - 1)
  {
  }

  /**
   * An odd width 2k+1 whose height was truncated to 3k+1 settles in two more
   * corrections: the width drops to 2k, then the height becomes exactly 3k.
   */
  lemma OddTallStep(k: int, fuel: nat)
    requires k >= 1 && fuel >= 2
    ensures var t := Settle(Size(2 * k + 1, 3 * k + 1), fuel);
      t == Size(2 * k, 3 * k) && IsTargetRatio(t) && Snap(t.width, t.height).None?
  {
    SettleStep(Size(2 * k + 1, 3 * k + 1), Size(2 * k, 3 * k + 1), fuel);
    SettleStep(Size(2 * k, 3 * k + 1), Size(2 * k, 3 * k), fuel - 1);
    SettleAtTarget(Size(2 * k, 3 * k), fuel - 2);
  }

  /** Two sample resizes, 500x600 and 300x600, and the initial 400x600 size. */
  lemma SnapExamples()
    ensures Snap(500, 600) == Some(Size(400, 600))
    ensures Snap(300, 600) == Some(Size(300, 450))
    ensures Snap(InitialWidth, InitialHeight) == None
  {
  }
}
