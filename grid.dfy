/** Row-major cell grids and the reflow that a canvas resize performs on them.

    A frame's codepoints and attributes are each stored as one row-major buffer:
    cell (x, y) of a grid of width w lives at index y * w + x.  This module gives
    the meaning of every step of the resize in caca/canvas.c as a function on
    sequences, and proves that the steps together amount to `Reflow`: the old
    top-left corner survives and every other cell is blank. */
module Grid {

  /** A C 32-bit unsigned integer: `uint32_t`, or `unsigned int`. */
  newtype uint32 = x: int | 0 <= x < 0x1_0000_0000

  function Min(a: int, b: int): int { if a < b then a else b }
  function Max(a: int, b: int): int { if a < b then b else a }

  // ---------------------------------------------------------------------------
  // Arithmetic on row-major indices

  lemma MulMonoLeft(k: int, a: int, b: int)
    requires 0 <= k && a <= b
    ensures k * a <= k * b
  {
  }

  lemma MulMonoRight(a: int, b: int, k: int)
    requires a <= b && 0 <= k
    ensures a * k <= b * k
  {
  }

  /** A cell of row y < n lies below the end of row n - 1. */
  lemma RowBelow(y: int, x: int, w: int, n: int)
    requires 0 <= y < n && 0 <= x < w
    ensures 0 <= y * w + x < n * w
  {
    MulMonoRight(y + 1, n, w);
    MulMonoRight(0, y, w);
  }

  /** Index y * w + x names column x of row y. */
  lemma RowCol(y: int, x: int, w: int)
    requires 0 <= y && 0 <= x < w
    ensures (y * w + x) / w == y && (y * w + x) % w == x
  {
    var i := y * w + x;
    var q, r := i / w, i % w;
    assert i == q * w + r && 0 <= r < w;
    if q < y {
      MulMonoRight(q + 1, y, w);
      assert false;
    } else if q > y {
      MulMonoRight(y + 1, q, w);
      assert false;
    }
  }

  /** Every index below n * w names a cell of a row y < n. */
  lemma IndexRow(i: int, w: int, n: nat)
    requires 0 <= i < n * w
    ensures w > 0 && 0 <= i / w < n && 0 <= i % w < w
    ensures i == (i / w) * w + i % w
  {
    if w <= 0 {
      MulMonoLeft(n, w, 0);
      assert false;
    }
    if i / w >= n {
      MulMonoRight(n, i / w, w);
      assert false;
    }
  }

  // ---------------------------------------------------------------------------
  // The meaning of a resize

  /** The cell at column x, row y of the w x h grid stored in s, or `fill` when
      (x, y) lies outside that grid. */
  ghost function CellAt<T>(s: seq<T>, w: nat, h: nat, x: int, y: int, fill: T): T
    requires |s| == w * h
  {
    if 0 <= x < w && 0 <= y < h then RowBelow(y, x, w, h); s[y * w + x] else fill
  }

  /** The grid a resize from ow x oh to w x h leaves: the common top-left corner
      keeps its cells and every other cell is `fill`. */
  ghost function Reflow<T>(s: seq<T>, ow: nat, oh: nat, w: nat, h: nat, fill: T): (r: seq<T>)
    requires |s| == ow * oh
    ensures |r| == w * h
  {
    seq(w * h, i => ReflowCell(s, ow, oh, w, i, fill))
  }

  /** Cell i, in row-major order, of the grid `Reflow` builds with width w. */
  ghost function ReflowCell<T>(s: seq<T>, ow: nat, oh: nat, w: nat, i: int, fill: T): T
    requires |s| == ow * oh
  {
    if 0 < w then CellAt(s, ow, oh, i % w, i / w, fill) else fill
  }

  lemma ReflowAt<T>(s: seq<T>, ow: nat, oh: nat, w: nat, h: nat, fill: T, x: int, y: int)
    requires |s| == ow * oh && 0 <= x < w && 0 <= y < h
    ensures 0 <= y * w + x < w * h
    ensures Reflow(s, ow, oh, w, h, fill)[y * w + x] == CellAt(s, ow, oh, x, y, fill)
  {
    RowBelow(y, x, w, h);
    RowCol(y, x, w);
  }

  /** Step 2 of the resize: the first `lines` rows change their stride from ow to
      w; the right-hand cells a wider row gains are `fill`; cells from index
      lines * w on are left as they were. */
  ghost function Restride<T>(s: seq<T>, ow: nat, w: nat, lines: nat, fill: T): (r: seq<T>)
    requires lines * ow <= |s| && lines * w <= |s|
    ensures |r| == |s|
  {
    seq(|s|, i requires 0 <= i < |s| =>
      if i < lines * w then IndexRow(i, w, lines); CellAt(s[..lines * ow], ow, lines, i % w, i / w, fill)
      else s[i])
  }

  lemma RestrideAt<T>(s: seq<T>, ow: nat, w: nat, lines: nat, fill: T, x: int, y: int)
    requires lines * ow <= |s| && lines * w <= |s|
    requires 0 <= x < w && 0 <= y < lines
    ensures 0 <= y * w + x < lines * w
    ensures x < ow ==> 0 <= y * ow + x < lines * ow
    ensures Restride(s, ow, w, lines, fill)[y * w + x] == if x < ow then s[y * ow + x] else fill
  {
    RowBelow(y, x, w, lines);
    RowCol(y, x, w);
    if x < ow {
      RowBelow(y, x, ow, lines);
    }
  }

  /** Step 3 of the resize: cells [lo, hi) become `fill`. */
  ghost function Filled<T>(s: seq<T>, lo: nat, hi: nat, fill: T): (r: seq<T>)
    requires lo <= hi <= |s|
    ensures |r| == |s|
  {
    seq(|s|, i requires 0 <= i < |s| => if lo <= i < hi then fill else s[i])
  }

  /** Steps 2 and 3 of the resize on a buffer g that holds max(old, new area)
      cells: rows change stride, then the rows a taller grid gains are `fill`. */
  ghost function Reshaped<T>(g: seq<T>, ow: nat, oh: nat, w: nat, h: nat, fill: T): (r: seq<T>)
    requires |g| == Max(ow * oh, w * h)
    ensures |r| == |g|
  {
    var lines := Min(h, oh);
    MulMonoRight(lines, oh, ow); MulMonoRight(lines, h, w);
    var m := if w == ow then g else Restride(g, ow, w, lines, fill);
    if h > oh then MulMonoRight(oh, h, w); Filled(m, oh * w, h * w, fill) else m
  }

  /** The four steps of caca_resize, applied to one buffer o, leave exactly
      `Reflow` of its contents: g is the buffer after step 1 (grown when the
      area grows, otherwise o itself), and step 4 keeps the first w * h cells
      of what steps 2 and 3 leave. */
  lemma {:induction false} ResizeReflows<T>(o: seq<T>, g: seq<T>, ow: nat, oh: nat, w: nat, h: nat, fill: T)
    requires |o| == ow * oh
    requires |g| == Max(ow * oh, w * h) && g[..ow * oh] == o
    ensures w * h <= |g|
    ensures Reshaped(g, ow, oh, w, h, fill)[..w * h] == Reflow(o, ow, oh, w, h, fill)
  {
    var lines := Min(h, oh);
    MulMonoRight(lines, oh, ow); MulMonoRight(lines, h, w);
    var m := if w == ow then g else Restride(g, ow, w, lines, fill);
    var f := Reshaped(g, ow, oh, w, h, fill);
    var want := Reflow(o, ow, oh, w, h, fill);
    forall i | 0 <= i < w * h
      ensures f[i] == want[i]
    {
      IndexRow(i, w, h);
      var y, x := i / w, i % w;
      ReflowAt(o, ow, oh, w, h, fill, x, y);
      if y < oh {
        assert i < oh * w by { RowBelow(y, x, w, oh); }
        assert f[i] == m[i];
        if w == ow {
          RowBelow(y, x, ow, oh);
        } else {
          RestrideAt(g, ow, w, lines, fill, x, y);
          if x < ow {
            RowBelow(y, x, ow, oh);
          }
        }
      } else {
        assert oh * w <= i by { MulMonoRight(oh, y, w); }
      }
    }
  }

  // ---------------------------------------------------------------------------
  // What a resize promises to its callers

  /** The common top-left corner keeps every cell; every other cell of the new
      grid is blank (the source fills them with ' ' and the frame's attribute). */
  lemma ReflowKeepsCorner<T>(s: seq<T>, ow: nat, oh: nat, w: nat, h: nat, fill: T, x: int, y: int)
    requires |s| == ow * oh && 0 <= x < w && 0 <= y < h
    ensures 0 <= y * w + x < w * h
    ensures x < ow && y < oh ==> 0 <= y * ow + x < ow * oh &&
                                  Reflow(s, ow, oh, w, h, fill)[y * w + x] == s[y * ow + x]
    ensures !(x < ow && y < oh) ==> Reflow(s, ow, oh, w, h, fill)[y * w + x] == fill
  {
    ReflowAt(s, ow, oh, w, h, fill, x, y);
    if x < ow && y < oh {
      RowBelow(y, x, ow, oh);
    }
  }

  /** A grid resized out of an empty one is blank everywhere. */
  lemma {:induction false} ReflowFromEmpty<T>(s: seq<T>, ow: nat, oh: nat, w: nat, h: nat, fill: T)
    requires |s| == ow * oh && (ow == 0 || oh == 0)
    ensures forall i :: 0 <= i < w * h ==> Reflow(s, ow, oh, w, h, fill)[i] == fill
  {
    forall i | 0 <= i < w * h
      ensures Reflow(s, ow, oh, w, h, fill)[i] == fill
    {
      IndexRow(i, w, h);
      ReflowKeepsCorner(s, ow, oh, w, h, fill, i % w, i / w);
    }
  }

  /** Resizing to the same size changes nothing. */
  lemma {:induction false} ReflowSameSize<T>(s: seq<T>, w: nat, h: nat, fill: T)
    requires |s| == w * h
    ensures Reflow(s, w, h, w, h, fill) == s
  {
    var r := Reflow(s, w, h, w, h, fill);
    forall i | 0 <= i < w * h
      ensures r[i] == s[i]
    {
      IndexRow(i, w, h);
      ReflowKeepsCorner(s, w, h, w, h, fill, i % w, i / w);
    }
  }

  /** Growing a canvas and shrinking it back restores it exactly. */
  lemma {:induction false} ReflowGrowShrink<T>(s: seq<T>, ow: nat, oh: nat, w: nat, h: nat, fill: T)
    requires |s| == ow * oh && ow <= w && oh <= h
    ensures Reflow(Reflow(s, ow, oh, w, h, fill), w, h, ow, oh, fill) == s
  {
    var g := Reflow(s, ow, oh, w, h, fill);
    var r := Reflow(g, w, h, ow, oh, fill);
    forall i | 0 <= i < ow * oh
      ensures r[i] == s[i]
    {
      IndexRow(i, ow, oh);
      var y, x := i / ow, i % ow;
      ReflowKeepsCorner(g, w, h, ow, oh, fill, x, y);
      ReflowKeepsCorner(s, ow, oh, w, h, fill, x, y);
    }
  }

  /** Shrinking to w2 x h2 and growing back keeps the retained w2 x h2 corner
      and blanks the rest: content outside the corner is not recovered. */
  lemma {:induction false} ReflowShrinkGrow<T>(s: seq<T>, w: nat, h: nat, w2: nat, h2: nat, fill: T)
    requires |s| == w * h && w2 <= w && h2 <= h
    ensures Reflow(Reflow(s, w, h, w2, h2, fill), w2, h2, w, h, fill)
            == seq(w * h, i requires 0 <= i < w * h =>
                 if i % w < w2 && i / w < h2 then s[i] else fill)
  {
    var t := Reflow(s, w, h, w2, h2, fill);
    var r := Reflow(t, w2, h2, w, h, fill);
    var want := seq(w * h, i requires 0 <= i < w * h => if i % w < w2 && i / w < h2 then s[i] else fill);
    forall i | 0 <= i < w * h
      ensures r[i] == want[i]
    {
      IndexRow(i, w, h);
      var y, x := i / w, i % w;
      ReflowKeepsCorner(t, w2, h2, w, h, fill, x, y);
      if x < w2 && y < h2 {
        ReflowKeepsCorner(s, w, h, w2, h2, fill, x, y);
      }
    }
  }
}
