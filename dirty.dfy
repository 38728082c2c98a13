/** The canvas's dirty rectangle (caca/canvas.c:332-426): one box of cells
    that have changed since a display driver last reset it, held as four
    signed bounds.  A box whose minimum exceeds its maximum on either axis is
    empty.  Nothing here clips: bounds that stick out of the canvas are kept
    as given. */
module Dirty {
  import opened Grid

  /** `dirty_xmin`, `dirty_xmax`, `dirty_ymin`, `dirty_ymax`, in the order the
      public calls take them. */
  datatype Rect = Rect(xmin: int, xmax: int, ymin: int, ymax: int)

  /** The bounds a new canvas starts with (caca/canvas.c:96-99). */
  const Initial := Rect(0, -1, 0, -1)

  /** The empty box `caca_set_dirty_rectangle` stores for a w x h canvas. */
  function Cleared(w: int, h: int): Rect { Rect(w, -1, h, -1) }

  predicate Degenerate(r: Rect) { r.xmin > r.xmax || r.ymin > r.ymax }

  /** The box lies entirely to one side of the w x h canvas. */
  predicate OutOfBounds(r: Rect, w: int, h: int) { r.xmax < 0 || r.xmin >= w || r.ymax < 0 || r.ymin >= h }

  /** The boxes `add` ignores and `set` replaces by `Cleared`. */
  predicate Rejected(r: Rect, w: int, h: int) { Degenerate(r) || OutOfBounds(r, w, h) }

  /** Cell (x, y) lies inside box d. */
  predicate Covers(d: Rect, x: int, y: int) { d.xmin <= x <= d.xmax && d.ymin <= y <= d.ymax }

  /** `caca_add_dirty_rectangle` on a w x h canvas whose box is d
      (caca/canvas.c:364-388).  A rejected box leaves d as it is; any other
      box widens d on each side just as far as needed to take it in. */
  function Add(d: Rect, r: Rect, w: int, h: int): (n: Rect)
    ensures Rejected(r, w, h) ==> n == d
    ensures n.xmin <= d.xmin && d.xmax <= n.xmax && n.ymin <= d.ymin && d.ymax <= n.ymax
    ensures !Rejected(r, w, h) ==>
              n.xmin <= r.xmin && r.xmax <= n.xmax && n.ymin <= r.ymin && r.ymax <= n.ymax
    ensures (n.xmin == d.xmin || n.xmin == r.xmin) && (n.xmax == d.xmax || n.xmax == r.xmax)
    ensures (n.ymin == d.ymin || n.ymin == r.ymin) && (n.ymax == d.ymax || n.ymax == r.ymax)
  {
    if Rejected(r, w, h) then d
    else Rect(Min(d.xmin, r.xmin), Max(d.xmax, r.xmax), Min(d.ymin, r.ymin), Max(d.ymax, r.ymax))
  }

  /** `caca_set_dirty_rectangle` on a w x h canvas (caca/canvas.c:407-426): a
      rejected box is stored as the canonical empty box, any other verbatim. */
  function Set(r: Rect, w: int, h: int): (n: Rect)
    ensures Rejected(r, w, h) ==> n == Cleared(w, h)
    ensures !Rejected(r, w, h) ==> n == r
  {
    if Rejected(r, w, h) then Cleared(w, h) else r
  }

  /** The call after the rows of a wider canvas have moved (caca/canvas.c:560):
      written as if the order were (x1, y1, x2, y2), so xmin = old width,
      xmax = 0, ymin = w - 1, ymax = old height - 1. */
  function WidenDirty(d: Rect, ow: int, oh: int, w: int, h: int): (n: Rect)
    ensures n.xmin <= d.xmin && d.xmax <= n.xmax && n.ymin <= d.ymin && d.ymax <= n.ymax
    ensures 0 < ow ==> n == d
    ensures ow == 0 < w && w <= oh && w <= h ==> forall y :: w - 1 <= y < oh ==> Covers(n, 0, y)
    ensures ow == 0 < w && (oh < w || h < w) ==> n == d
  {
    if w > ow then Add(d, Rect(ow, 0, w - 1, oh - 1), w, h) else d
  }

  /** The call after the new bottom rows are blanked (caca/canvas.c:601):
      xmin = 0, xmax = old height, ymin = old width - 1, ymax = h - 1. */
  function TallerDirty(d: Rect, ow: int, oh: int, w: int, h: int): (n: Rect)
    ensures n.xmin <= d.xmin && d.xmax <= n.xmax && n.ymin <= d.ymin && d.ymax <= n.ymax
    ensures h > oh >= 0 && 0 < w && ow <= h ==>
              forall x, y :: 0 <= x <= oh && ow - 1 <= y < h ==> Covers(n, x, y)
    ensures h > oh >= 0 && (w <= 0 || h < ow) ==> n == d
    ensures h <= oh ==> n == d
  {
    if h > oh then Add(d, Rect(0, oh, ow - 1, h - 1), w, h) else d
  }

  /** The call for the new bottom-right corner (caca/canvas.c:607-609):
      xmin = old width, xmax = old height, ymin = w - 1, ymax = h - 1. */
  function CornerDirty(d: Rect, ow: int, oh: int, w: int, h: int): (n: Rect)
    ensures n.xmin <= d.xmin && d.xmax <= n.xmax && n.ymin <= d.ymin && d.ymax <= n.ymax
    ensures w > ow && h > oh >= 0 && ow <= oh && w <= h ==>
              forall x, y :: ow <= x <= oh && w - 1 <= y < h ==> Covers(n, x, y)
    ensures w > ow && h > oh && (oh < ow || h < w) ==> n == d
    ensures !(w > ow && h > oh) ==> n == d
  {
    if w > ow && h > oh then Add(d, Rect(ow, oh, w - 1, h - 1), w, h) else d
  }

  /** The three `caca_add_dirty_rectangle` calls of `caca_resize`, in order,
      on a canvas whose size is already the new w x h: the rectangle only
      grows. */
  function ResizeDirty(d: Rect, ow: int, oh: int, w: int, h: int): (n: Rect)
    ensures n.xmin <= d.xmin && d.xmax <= n.xmax && n.ymin <= d.ymin && d.ymax <= n.ymax
  {
    CornerDirty(TallerDirty(WidenDirty(d, ow, oh, w, h), ow, oh, w, h), ow, oh, w, h)
  }

  // ---------------------------------------------------------------------------
  // Properties

  /** Every cell of the old box, and every cell of an accepted new box, is in
      the box `add` leaves. */
  lemma AddCovers(d: Rect, r: Rect, w: int, h: int, x: int, y: int)
    ensures Covers(d, x, y) ==> Covers(Add(d, r, w, h), x, y)
    ensures !Rejected(r, w, h) && Covers(r, x, y) ==> Covers(Add(d, r, w, h), x, y)
  {
  }

  /** Adding the same box twice is adding it once. */
  lemma AddIdempotent(d: Rect, r: Rect, w: int, h: int)
    ensures Add(Add(d, r, w, h), r, w, h) == Add(d, r, w, h)
  {
  }

  /** The order in which two boxes are added does not matter. */
  lemma AddCommutes(d: Rect, r1: Rect, r2: Rect, w: int, h: int)
    ensures Add(Add(d, r1, w, h), r2, w, h) == Add(Add(d, r2, w, h), r1, w, h)
  {
  }

  /** After a reset, adding a box yields exactly that box (or the reset box, if
      the box is rejected): the canonical empty box is neutral for `add`. */
  lemma ClearedIsNeutral(r: Rect, w: int, h: int)
    ensures Add(Cleared(w, h), r, w, h) == if Rejected(r, w, h) then Cleared(w, h) else r
  {
  }

  /** The box a new canvas starts with is empty but not neutral: on a 10 x 10
      canvas, adding the single cell (5, 5) marks the whole square from (0, 0). */
  lemma InitialNotNeutral()
    ensures Degenerate(Initial)
    ensures Add(Initial, Rect(5, 5, 5, 5), 10, 10) == Rect(0, 5, 0, 5)
  {
  }

  /** `set` stores only boxes that `set` would keep again: it is idempotent on
      any canvas of non-negative size. */
  lemma SetIdempotent(r: Rect, w: int, h: int)
    requires 0 <= w && 0 <= h
    ensures Set(Set(r, w, h), w, h) == Set(r, w, h)
  {
  }

  /** The box `caca_create_canvas` leaves, through its resize from 0 x 0: for a
      non-empty canvas the three calls of `caca_resize` produce the one-column
      box (0, 0, -1, h - 1): column 0 from row -1 to row h - 1, not the whole
      canvas. */
  lemma CreatedDirty(w: int, h: int)
    requires 0 <= w && 0 <= h
    ensures ResizeDirty(Initial, 0, 0, w, h) == if 0 < w && 0 < h then Rect(0, 0, -1, h - 1) else Initial
    ensures 0 < w && 0 < h ==> !Degenerate(ResizeDirty(Initial, 0, 0, w, h)) && Covers(ResizeDirty(Initial, 0, 0, w, h), 0, h - 1)
  {
  }

  /** When only the width grows, on a canvas that had columns, the one call
      made (caca/canvas.c:560) passes xmin = old width > xmax = 0 and is
      ignored: the new columns are never marked dirty. */
  lemma WidenedColumnsNotMarked(d: Rect, ow: int, w: int, h: int)
    requires 0 < ow < w
    ensures ResizeDirty(d, ow, h, w, h) == d
  {
  }

  /** Growing a reset 2 x 2 canvas to 4 x 4 marks the box x in [0, 2],
      y in [1, 3]: the new corner cell (3, 3) and the new cell (3, 0) are not
      in it. */
  lemma GrownCornerNotMarked()
    ensures ResizeDirty(Cleared(2, 2), 2, 2, 4, 4) == Rect(0, 2, 1, 3)
    ensures !Covers(ResizeDirty(Cleared(2, 2), 2, 2, 4, 4), 3, 3)
    ensures !Covers(ResizeDirty(Cleared(2, 2), 2, 2, 4, 4), 3, 0)
  {
  }
}
