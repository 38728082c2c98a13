/** The libcaca canvas (caca/canvas.c): a list of frames, each with a
    codepoint buffer and an attribute buffer of width * height cells, a cursor,
    a handle, a current attribute and a name; the lock that a display driver
    takes on it; its dirty rectangle; and the resize that reflows every frame's
    buffers in place.

    C's `frames` array of structs is `frames`, a sequence of `Frame` values
    holding references to the buffers; `framecount` is its length.  A NULL
    buffer is an empty array.  The canvas keeps shortcuts to the current frame
    (`width`, `height`, `chars`, `attrs`, `curattr`), which the two frame-info
    helpers copy to and from `frames[frame]`. */
module CacaCanvas {
  import opened Grid
  import opened FrameBuffers
  import opened Dirty

  datatype Errno = EINVAL | ENOMEM | EBUSY

  /** The C convention of the public calls: 0, or -1 with `errno` set. */
  datatype Status = Ok | Fail(errno: Errno)

  /** An opaque C pointer (the resize callback and its argument). */
  datatype Ptr = Null | Addr(addr: nat)

  datatype Frame = Frame(width: int, height: int,
                         chars: array<uint32>, attrs: array<uint32>,
                         x: int, y: int, handlex: int, handley: int,
                         curattr: uint32, name: string)

  /** The result of `caca_create_canvas`: a canvas, or NULL with `errno`. */
  datatype Created = Made(cv: Canvas) | Failed(errno: Errno)

  /** Pairwise distinct buffers: no two frames, and no frame's two buffers,
      share an array. */
  ghost predicate Disjoint(fs: seq<Frame>)
  {
    (forall i :: 0 <= i < |fs| ==> fs[i].chars != fs[i].attrs) &&
    (forall i, j :: 0 <= i < j < |fs| ==>
       fs[i].chars != fs[j].chars && fs[i].attrs != fs[j].attrs &&
       fs[i].chars != fs[j].attrs && fs[i].attrs != fs[j].chars)
  }

  /** a and b agree on everything but their two buffers. */
  predicate SameButBuffers(a: Frame, b: Frame)
  {
    a.width == b.width && a.height == b.height && a.x == b.x && a.y == b.y &&
    a.handlex == b.handlex && a.handley == b.handley && a.curattr == b.curattr && a.name == b.name
  }

  /** b is the buffer `realloc` returns for a when asked for n cells. */
  ghost predicate Kept(b: seq<uint32>, a: seq<uint32>, n: nat)
  {
    |b| == n && b[..Min(n, |a|)] == a[..Min(n, |a|)]
  }

  /** Every buffer of the frame list fs. */
  ghost function BuffersOf(fs: seq<Frame>): set<object>
  {
    (set i | 0 <= i < |fs| :: fs[i].chars) + (set i | 0 <= i < |fs| :: fs[i].attrs)
  }

  /** Every frame's two buffers hold n cells and none is shared. */
  ghost predicate Sized(fs: seq<Frame>, n: nat)
  {
    (forall i :: 0 <= i < |fs| ==> fs[i].chars.Length == n && fs[i].attrs.Length == n) &&
    Disjoint(fs)
  }

  /** One iteration of the realloc loop: both buffers of frame fr are
      reallocated to n cells; failing to allocate a non-empty block is a
      failure. */
  method ReallocFrame(fr: Frame, n: nat) returns (g: Frame, ok: bool)
    ensures SameButBuffers(g, fr)
    ensures fresh(g.chars) && fresh(g.attrs) && g.chars != g.attrs
    ensures ok ==> g.chars.Length == n && g.attrs.Length == n &&
                   Kept(g.chars[..], fr.chars[..], n) && Kept(g.attrs[..], fr.attrs[..], n)
    ensures !ok ==> n > 0
  {
    var c, okc := Realloc(fr.chars, n);
    var a, oka := Realloc(fr.attrs, n);
    g := fr.(chars := c, attrs := a);
    ok := !(n > 0 && (!okc || !oka));
  }

  /** Steps 1 and 4 of the resize (caca/canvas.c:508-523, 611-626) on the
      frame list fs: both buffers of every frame are reallocated to n cells;
      the first frame whose allocation of a non-empty block fails ends the
      loop with failure.  Nothing existing is modified. */
  method ReallocFrames(fs: seq<Frame>, n: nat) returns (gs: seq<Frame>, ok: bool)
    ensures |gs| == |fs|
    ensures forall i :: 0 <= i < |gs| ==> SameButBuffers(gs[i], fs[i])
    ensures ok ==> Sized(gs, n)
    ensures ok ==> forall i :: 0 <= i < |gs| ==> fresh(gs[i].chars) && fresh(gs[i].attrs)
    ensures ok ==> forall i :: 0 <= i < |gs| ==>
              Kept(gs[i].chars[..], fs[i].chars[..], n) && Kept(gs[i].attrs[..], fs[i].attrs[..], n)
    ensures !ok ==> n > 0
  {
    gs := fs;
    var f := 0;
    while f < |gs|
      invariant 0 <= f <= |gs| == |fs|
      invariant forall i :: 0 <= i < |gs| ==> SameButBuffers(gs[i], fs[i])
      invariant forall i :: f <= i < |gs| ==> gs[i] == fs[i]
      invariant forall i :: 0 <= i < f ==>
                  fresh(gs[i].chars) && fresh(gs[i].attrs) &&
                  gs[i].chars.Length == n && gs[i].attrs.Length == n &&
                  Kept(gs[i].chars[..], fs[i].chars[..], n) && Kept(gs[i].attrs[..], fs[i].attrs[..], n)
      invariant Disjoint(gs[..f])
    {
      var fr, okf := ReallocFrame(gs[f], n);
      gs := gs[f := fr];
      if !okf {
        return gs, false;
      }
      assert gs[..f + 1] == gs[..f] + [gs[f]];
      f := f + 1;
    }
    assert gs[..f] == gs;
    ok := true;
  }

  /** Step 2 when the width grows (caca/canvas.c:531-558), frame by frame. */
  method WidenFrames(fs: seq<Frame>, ow: nat, w: nat, lines: nat, ghost n: nat)
    requires Sized(fs, n) && ow < w && lines * ow <= n && lines * w <= n
    modifies BuffersOf(fs)
    ensures forall i :: 0 <= i < |fs| ==>
              fs[i].chars[..] == Restride(old(fs[i].chars[..]), ow, w, lines, SPACE) &&
              fs[i].attrs[..] == Restride(old(fs[i].attrs[..]), ow, w, lines, fs[i].curattr)
  {
    var f := 0;
    while f < |fs|
      invariant 0 <= f <= |fs|
      invariant forall i :: 0 <= i < f ==>
                  fs[i].chars[..] == Restride(old(fs[i].chars[..]), ow, w, lines, SPACE) &&
                  fs[i].attrs[..] == Restride(old(fs[i].attrs[..]), ow, w, lines, fs[i].curattr)
      invariant forall i :: f <= i < |fs| ==>
                  fs[i].chars[..] == old(fs[i].chars[..]) && fs[i].attrs[..] == old(fs[i].attrs[..])
    {
      WidenRows(fs[f].chars, fs[f].attrs, ow, w, lines, fs[f].curattr);
      f := f + 1;
    }
  }

  /** Step 2 when the width shrinks (caca/canvas.c:562-582), frame by frame. */
  method NarrowFrames(fs: seq<Frame>, ow: nat, w: nat, lines: nat, ghost n: nat)
    requires Sized(fs, n) && w < ow && lines * ow <= n && lines * w <= n
    modifies BuffersOf(fs)
    ensures forall i :: 0 <= i < |fs| ==>
              fs[i].chars[..] == Restride(old(fs[i].chars[..]), ow, w, lines, SPACE) &&
              fs[i].attrs[..] == Restride(old(fs[i].attrs[..]), ow, w, lines, fs[i].curattr)
  {
    var f := 0;
    while f < |fs|
      invariant 0 <= f <= |fs|
      invariant forall i :: 0 <= i < f ==>
                  fs[i].chars[..] == Restride(old(fs[i].chars[..]), ow, w, lines, SPACE) &&
                  fs[i].attrs[..] == Restride(old(fs[i].attrs[..]), ow, w, lines, fs[i].curattr)
      invariant forall i :: f <= i < |fs| ==>
                  fs[i].chars[..] == old(fs[i].chars[..]) && fs[i].attrs[..] == old(fs[i].attrs[..])
    {
      NarrowRows(fs[f].chars, fs[f].attrs, ow, w, lines, fs[f].curattr);
      f := f + 1;
    }
  }

  /** Step 3 (caca/canvas.c:585-602), frame by frame. */
  method FillFrames(fs: seq<Frame>, start: nat, count: nat, ghost n: nat)
    requires Sized(fs, n) && start + count <= n
    modifies BuffersOf(fs)
    ensures forall i :: 0 <= i < |fs| ==>
              fs[i].chars[..] == Filled(old(fs[i].chars[..]), start, start + count, SPACE) &&
              fs[i].attrs[..] == Filled(old(fs[i].attrs[..]), start, start + count, fs[i].curattr)
  {
    var f := 0;
    while f < |fs|
      invariant 0 <= f <= |fs|
      invariant forall i :: 0 <= i < f ==>
                  fs[i].chars[..] == Filled(old(fs[i].chars[..]), start, start + count, SPACE) &&
                  fs[i].attrs[..] == Filled(old(fs[i].attrs[..]), start, start + count, fs[i].curattr)
      invariant forall i :: f <= i < |fs| ==>
                  fs[i].chars[..] == old(fs[i].chars[..]) && fs[i].attrs[..] == old(fs[i].attrs[..])
    {
      FillCells(fs[f].chars, fs[f].attrs, start, count, fs[f].curattr);
      f := f + 1;
    }
  }

  /** The last loop of the resize (caca/canvas.c:628-638): cursors beyond the
      new size are pulled back onto its edge and every frame takes the size. */
  method ClampFrames(fs: seq<Frame>, w: int, h: int) returns (gs: seq<Frame>)
    ensures |gs| == |fs|
    ensures forall i :: 0 <= i < |gs| ==>
              gs[i] == fs[i].(x := Min(fs[i].x, w), y := Min(fs[i].y, h), width := w, height := h)
  {
    gs := fs;
    var f := 0;
    while f < |gs|
      invariant 0 <= f <= |gs| == |fs|
      invariant forall i :: 0 <= i < f ==>
                  gs[i] == fs[i].(x := Min(fs[i].x, w), y := Min(fs[i].y, h), width := w, height := h)
      invariant forall i :: f <= i < |gs| ==> gs[i] == fs[i]
    {
      var fr := gs[f];
      if fr.x > w {
        fr := fr.(x := w);
      }
      if fr.y > h {
        fr := fr.(y := h);
      }
      gs := gs[f := fr.(width := w, height := h)];
      f := f + 1;
    }
  }

  /** Step 2 of the resize (caca/canvas.c:525-582) on frames whose buffers
      hold n cells, the canvas being already w x h (caca/canvas.c:504-505): rows move to their
      new stride, and when the canvas widens the dirty rectangle d takes the
      call of caca/canvas.c:560. */
  method MoveRows(fs: seq<Frame>, d: Rect, ow: nat, oh: nat, w: nat, h: nat, ghost n: nat) returns (nd: Rect)
    requires Sized(fs, n) && Min(h, oh) * ow <= n && Min(h, oh) * w <= n
    modifies BuffersOf(fs)
    ensures w == ow ==> forall i :: 0 <= i < |fs| ==>
              fs[i].chars[..] == old(fs[i].chars[..]) && fs[i].attrs[..] == old(fs[i].attrs[..])
    ensures w != ow ==> forall i :: 0 <= i < |fs| ==>
              fs[i].chars[..] == Restride(old(fs[i].chars[..]), ow, w, Min(h, oh), SPACE) &&
              fs[i].attrs[..] == Restride(old(fs[i].attrs[..]), ow, w, Min(h, oh), fs[i].curattr)
    ensures nd == WidenDirty(d, ow, oh, w, h)
  {
    nd := d;
    if w > ow {
      WidenFrames(fs, ow, w, Min(h, oh), n);
      nd := Add(nd, Rect(ow, 0, w - 1, oh - 1), w, h);
    } else if w < ow {
      NarrowFrames(fs, ow, w, Min(h, oh), n);
    }
  }

  /** Step 3 of the resize (caca/canvas.c:585-609) on frames whose buffers
      hold n cells, the canvas being already w x h: when the canvas
      grows taller the new bottom rows are blanked, and the dirty rectangle d
      takes the calls of caca/canvas.c:601 and 608. */
  method FillRows(fs: seq<Frame>, d: Rect, ow: nat, oh: nat, w: nat, h: nat, ghost n: nat) returns (nd: Rect)
    requires Sized(fs, n) && (h > oh ==> oh * w <= h * w <= n)
    modifies BuffersOf(fs)
    ensures h <= oh ==> forall i :: 0 <= i < |fs| ==>
              fs[i].chars[..] == old(fs[i].chars[..]) && fs[i].attrs[..] == old(fs[i].attrs[..])
    ensures h > oh ==> forall i :: 0 <= i < |fs| ==>
              fs[i].chars[..] == Filled(old(fs[i].chars[..]), oh * w, h * w, SPACE) &&
              fs[i].attrs[..] == Filled(old(fs[i].attrs[..]), oh * w, h * w, fs[i].curattr)
    ensures nd == CornerDirty(TallerDirty(d, ow, oh, w, h), ow, oh, w, h)
  {
    nd := d;
    if h > oh {
      assert oh * w + (h - oh) * w == h * w;
      FillFrames(fs, oh * w, (h - oh) * w, n);
      nd := Add(nd, Rect(0, oh, ow - 1, h - 1), w, h);
    }
    if w > ow && h > oh {
      nd := Add(nd, Rect(ow, oh, w - 1, h - 1), w, h);
    }
  }

  /** Steps 2 and 3 together on frames whose buffers hold max(ow * oh, w * h)
      cells: each buffer ends up as the old grid reshaped in place. */
  method Reshape(fs: seq<Frame>, d: Rect, ow: nat, oh: nat, w: nat, h: nat) returns (nd: Rect)
    requires Sized(fs, Max(ow * oh, w * h))
    modifies BuffersOf(fs)
    ensures forall i :: 0 <= i < |fs| ==>
              fs[i].chars[..] == Reshaped(old(fs[i].chars[..]), ow, oh, w, h, SPACE) &&
              fs[i].attrs[..] == Reshaped(old(fs[i].attrs[..]), ow, oh, w, h, fs[i].curattr)
    ensures nd == ResizeDirty(d, ow, oh, w, h)
  {
    var n := Max(ow * oh, w * h);
    var lines := Min(h, oh);
    MulMonoRight(lines, oh, ow);
    MulMonoRight(lines, h, w);
    nd := MoveRows(fs, d, ow, oh, w, h, n);
    if h > oh {
      MulMonoRight(oh, h, w);
    }
    nd := FillRows(fs, nd, ow, oh, w, h, n);
  }

  /** Steps 1 to 3 of the resize (caca/canvas.c:508-609) on frames whose
      buffers hold ow * oh cells, the canvas being already w x h: a
      larger area is allocated before anything moves, then rows move and new
      rows are blanked.  On success the first w * h cells of every buffer hold
      the reflowed grid. */
  method GrowAndReshape(fs: seq<Frame>, d: Rect, ow: nat, oh: nat, w: nat, h: nat)
    returns (gs: seq<Frame>, nd: Rect, ok: bool)
    requires Sized(fs, ow * oh)
    modifies BuffersOf(fs)
    ensures |gs| == |fs|
    ensures forall i :: 0 <= i < |gs| ==> SameButBuffers(gs[i], fs[i])
    ensures ok ==> Sized(gs, Max(ow * oh, w * h))
    ensures ok ==> forall i :: 0 <= i < |gs| ==>
              w * h <= gs[i].chars.Length && w * h <= gs[i].attrs.Length &&
              gs[i].chars[..w * h] == Reflow(old(fs[i].chars[..]), ow, oh, w, h, SPACE) &&
              gs[i].attrs[..w * h] == Reflow(old(fs[i].attrs[..]), ow, oh, w, h, fs[i].curattr)
    ensures ok ==> nd == ResizeDirty(d, ow, oh, w, h)
    ensures ok ==> forall i :: 0 <= i < |gs| ==>
              (gs[i].chars == fs[i].chars || fresh(gs[i].chars)) && (gs[i].attrs == fs[i].attrs || fresh(gs[i].attrs))
  {
    var oldSize, newSize := ow * oh, w * h;
    gs, nd := fs, d;
    if newSize > oldSize {
      gs, ok := ReallocFrames(fs, newSize);
      if !ok {
        return;
      }
    }
    ok := true;
    label grown:
    nd := Reshape(gs, d, ow, oh, w, h);
    forall i | 0 <= i < |gs|
      ensures gs[i].chars[..newSize] == Reflow(old(fs[i].chars[..]), ow, oh, w, h, SPACE)
      ensures gs[i].attrs[..newSize] == Reflow(old(fs[i].attrs[..]), ow, oh, w, h, fs[i].curattr)
    {
      ResizeReflows(old(fs[i].chars[..]), old@grown(gs[i].chars[..]), ow, oh, w, h, SPACE);
      ResizeReflows(old(fs[i].attrs[..]), old@grown(gs[i].attrs[..]), ow, oh, w, h, fs[i].curattr);
    }
  }

  /** Step 4 of the resize (caca/canvas.c:611-626) on frames whose buffers
      hold the larger of the old and the new area: when the new area is the
      smaller, after the moves, they are reallocated to it; the first
      newSize cells of each are kept. */
  method Shrink(fs: seq<Frame>, oldSize: nat, newSize: nat) returns (gs: seq<Frame>, ok: bool)
    requires Sized(fs, Max(oldSize, newSize))
    ensures |gs| == |fs|
    ensures forall i :: 0 <= i < |gs| ==> SameButBuffers(gs[i], fs[i])
    ensures ok ==> Sized(gs, newSize)
    ensures ok ==> forall i :: 0 <= i < |gs| ==>
              gs[i].chars[..] == fs[i].chars[..newSize] && gs[i].attrs[..] == fs[i].attrs[..newSize]
    ensures ok ==> forall i :: 0 <= i < |gs| ==>
              (gs[i].chars == fs[i].chars || fresh(gs[i].chars)) && (gs[i].attrs == fs[i].attrs || fresh(gs[i].attrs))
  {
    if newSize < oldSize {
      gs, ok := ReallocFrames(fs, newSize);
      if !ok {
        return;
      }
      assert forall i :: 0 <= i < |gs| ==>
        gs[i].chars[..] == fs[i].chars[..newSize] && gs[i].attrs[..] == fs[i].attrs[..newSize];
    } else {
      gs, ok := fs, true;
      assert forall i :: 0 <= i < |gs| ==>
        gs[i].chars[..] == gs[i].chars[..newSize] && gs[i].attrs[..] == gs[i].attrs[..newSize];
    }
  }

  /** Steps 1 to 4 of the resize and the loop that sets the new size
      (caca/canvas.c:508-638) on frames whose buffers hold ow * oh cells, with
      the canvas being already w x h.  On success every buffer holds the
      reflowed grid, every frame is w x h with its cursor clamped, and the
      dirty rectangle d has taken the three calls of the resize. */
  method ResizeFrames(fs: seq<Frame>, d: Rect, ow: nat, oh: nat, w: nat, h: nat)
    returns (gs: seq<Frame>, nd: Rect, ok: bool)
    requires Sized(fs, ow * oh)
    modifies BuffersOf(fs)
    ensures ok ==> |gs| == |fs|
    ensures ok ==> forall i :: 0 <= i < |gs| ==>
              gs[i].chars[..] == Reflow(old(fs[i].chars[..]), ow, oh, w, h, SPACE) &&
              gs[i].attrs[..] == Reflow(old(fs[i].attrs[..]), ow, oh, w, h, fs[i].curattr)
    ensures ok ==> forall i :: 0 <= i < |gs| ==>
              SameButBuffers(gs[i], fs[i].(width := w, height := h, x := Min(fs[i].x, w), y := Min(fs[i].y, h)))
    ensures ok ==> Sized(gs, w * h)
    ensures ok ==> nd == ResizeDirty(d, ow, oh, w, h)
    ensures ok ==> forall i :: 0 <= i < |gs| ==>
              (gs[i].chars == fs[i].chars || fresh(gs[i].chars)) && (gs[i].attrs == fs[i].attrs || fresh(gs[i].attrs))
  {
    var oldSize, newSize := ow * oh, w * h;
    gs, nd, ok := GrowAndReshape(fs, d, ow, oh, w, h);
    if !ok {
      return;
    }
    gs, ok := Shrink(gs, oldSize, newSize);
    if !ok {
      return;
    }
    gs := ClampFrames(gs, w, h);
  }

  class Canvas {
    var refcount: int
    var autoinc: int
    var resizeCallback: Ptr
    var resizeData: Ptr

    var frame: nat
    var frames: seq<Frame>

    var width: int
    var height: int
    var chars: array<uint32>
    var attrs: array<uint32>
    var curattr: uint32

    var dirty: Rect

    /** Every frame has the canvas's size and buffers of that many cells, no
        buffer is shared, and the shortcuts point at the current frame. */
    ghost predicate Valid()
      reads this
    {
      0 <= width && 0 <= height && frame < |frames| &&
      (forall i :: 0 <= i < |frames| ==> frames[i].width == width && frames[i].height == height) &&
      Sized(frames, width * height) &&
      chars == frames[frame].chars && attrs == frames[frame].attrs
    }

    ghost function Buffers(): set<object>
      reads this
    {
      BuffersOf(frames)
    }

    /** Frame i's current attribute once `_caca_save_frame_info` has run. */
    ghost function SavedAttr(i: int): uint32
      reads this
      requires 0 <= i < |frames|
    {
      if i == frame then curattr else frames[i].curattr
    }

    /** What a successful `caca_resize` to w x h leaves, against the state
        before it (caca/canvas.c:494-644), in three parts.  The canvas: it is
        w x h and valid, and only its dirty rectangle has changed otherwise, by
        the three calls of the resize. */
    twostate predicate ResizedCanvas(w: int, h: int)
      reads this
    {
      Valid() && width == w && height == h &&
      frame == old(frame) && |frames| == old(|frames|) &&
      refcount == old(refcount) && autoinc == old(autoinc) &&
      resizeCallback == old(resizeCallback) && resizeData == old(resizeData) &&
      curattr == old(curattr) &&
      dirty == ResizeDirty(old(dirty), old(width), old(height), w, h)
    }

    /** Every frame is w x h, its cursor is pulled back onto the new size where
        it lay beyond it, and its attribute is the one saved at the start. */
    twostate predicate ResizedFrames(w: int, h: int)
      reads this
    {
      |frames| == old(|frames|) &&
      forall i :: 0 <= i < |frames| ==>
        SameButBuffers(frames[i], old(frames[i]).(width := w, height := h,
                                                  x := Min(old(frames[i].x), w), y := Min(old(frames[i].y), h),
                                                  curattr := old(SavedAttr(i))))
    }

    /** Every frame keeps the common top-left corner of its grid and is blank
        elsewhere, with ' ' and the frame's attribute. */
    twostate predicate ResizedCells(w: int, h: int)
      requires old(Valid()) && 0 <= w && 0 <= h && |frames| == old(|frames|)
      reads this, Buffers()
    {
      forall i :: 0 <= i < |frames| ==>
        frames[i].chars[..] == Reflow(old(frames[i].chars[..]), old(width), old(height), w, h, SPACE) &&
        frames[i].attrs[..] == Reflow(old(frames[i].attrs[..]), old(width), old(height), w, h, frames[i].curattr)
    }

    /** The initialisation part of `caca_create_canvas` (caca/canvas.c:71-101):
        one empty frame named "frame#00000000", cursor and handle at the origin,
        the canvas unmanaged, the dirty rectangle (0, -1, 0, -1).
        `caca_set_color_ansi(cv, CACA_DEFAULT, CACA_TRANSPARENT)` sets the
        current attribute to the value it encodes, `defaultAttr`. */
    constructor (defaultAttr: uint32)
      ensures Valid() && width == 0 && height == 0 && frame == 0 && |frames| == 1
      ensures frames[0].x == 0 && frames[0].y == 0 && frames[0].handlex == 0 && frames[0].handley == 0
      ensures frames[0].curattr == 0 && frames[0].name == "frame#00000000"
      ensures curattr == defaultAttr && dirty == Initial
      ensures refcount == 0 && resizeCallback == Null && resizeData == Null
      ensures fresh(Buffers())
    {
      refcount := 0;
      autoinc := 0;
      resizeCallback := Null;
      resizeData := Null;
      frame := 0;
      var c := new uint32[0];
      var a := new uint32[0];
      frames := [Frame(0, 0, c, a, 0, 0, 0, 0, 0, "frame#00000000")];
      width, height := 0, 0;
      chars, attrs := c, a;
      curattr := 0;
      new;
      LoadFrameInfo();
      curattr := defaultAttr;
      dirty := Initial;
    }

    /** `caca_create_canvas` (caca/canvas.c:56-118): a negative size fails with
        EINVAL before anything is allocated; allocation may fail with ENOMEM;
        otherwise the canvas is width x height, blank (every cell ' ' with the
        default attribute) and unmanaged. */
    static method CreateCanvas(width: int, height: int, defaultAttr: uint32) returns (r: Created)
      ensures r == Failed(EINVAL) <==> width < 0 || height < 0
      ensures r.Failed? ==> r.errno == EINVAL || r.errno == ENOMEM
      ensures r.Made? ==>
                0 <= width && 0 <= height && fresh(r.cv) && r.cv.Valid() &&
                r.cv.width == width && r.cv.height == height &&
                r.cv.frame == 0 && |r.cv.frames| == 1 && r.cv.refcount == 0 &&
                r.cv.resizeCallback == Null && r.cv.resizeData == Null &&
                r.cv.curattr == defaultAttr && r.cv.frames[0].curattr == defaultAttr &&
                r.cv.dirty == ResizeDirty(Initial, 0, 0, width, height) &&
                fresh(r.cv.Buffers()) &&
                r.cv.frames[0].x == 0 && r.cv.frames[0].y == 0 &&
                r.cv.frames[0].handlex == 0 && r.cv.frames[0].handley == 0 &&
                r.cv.frames[0].name == "frame#00000000" &&
                (forall i :: 0 <= i < width * height ==>
                   r.cv.chars[i] == SPACE && r.cv.attrs[i] == defaultAttr)
    {
      if width < 0 || height < 0 {
        return Failed(EINVAL);
      }
      var outOfMemory: bool :| true;
      if outOfMemory {
        return Failed(ENOMEM);
      }
      var cv := new Canvas(defaultAttr);
      label created:
      var st := cv.Resize(width, height);
      if st != Ok {
        return Failed(st.errno);
      }
      ReflowFromEmpty(old@created(cv.frames[0].chars[..]), 0, 0, width, height, SPACE);
      r := Made(cv);
    }

    /** `caca_manage_canvas` (caca/canvas.c:138-151): a canvas already managed
        fails with EBUSY and is left alone; otherwise the callback and its
        argument are stored and the canvas is marked managed. */
    method Manage(callback: Ptr, p: Ptr) returns (r: Status)
      modifies this`refcount, this`resizeCallback, this`resizeData
      ensures old(refcount) != 0 ==> r == Fail(EBUSY) && unchanged(this)
      ensures old(refcount) == 0 ==>
                r == Ok && refcount == 1 && resizeCallback == callback && resizeData == p
    {
      if refcount != 0 {
        return Fail(EBUSY);
      }
      resizeCallback := callback;
      resizeData := p;
      refcount := 1;
      r := Ok;
    }

    /** `caca_unmanage_canvas` (caca/canvas.c:172-184): an unmanaged canvas, or
        a callback or argument other than the stored ones, fails with EINVAL
        and changes nothing; otherwise only the managed mark is cleared. */
    method Unmanage(callback: Ptr, p: Ptr) returns (r: Status)
      modifies this`refcount
      ensures r == Fail(EINVAL) || r == Ok
      ensures r == Fail(EINVAL) <==>
                old(refcount) == 0 || resizeCallback != callback || resizeData != p
      ensures r == Fail(EINVAL) ==> unchanged(this)
      ensures r == Ok ==> refcount == 0
    {
      if refcount == 0 || resizeCallback != callback || resizeData != p {
        return Fail(EINVAL);
      }
      refcount := 0;
      r := Ok;
    }

    /** `caca_set_canvas_size` (caca/canvas.c:217-233).  `approve` is what the
        resize callback returns if it is called: it is called only when the
        canvas is managed and the callback is not NULL.  A negative size fails
        with EINVAL and a refused resize with EBUSY, both changing nothing;
        anything else is exactly `caca_resize`. */
    method SetCanvasSize(w: int, h: int, approve: bool) returns (r: Status)
      requires Valid()
      modifies this, Buffers()
      ensures r == Fail(EINVAL) <==> w < 0 || h < 0
      ensures r == Fail(EBUSY) <==>
                0 <= w && 0 <= h && old(refcount) != 0 && old(resizeCallback) != Null && !approve
      ensures r == Fail(EINVAL) || r == Fail(EBUSY) ==>
                unchanged(this) && forall i :: 0 <= i < |frames| ==>
                  unchanged(frames[i].chars) && unchanged(frames[i].attrs)
      ensures r == Ok ==> ResizedCanvas(w, h) && ResizedCells(w, h) && ResizedFrames(w, h)
      ensures r == Ok ==> fresh(Buffers() - old(Buffers()))
    {
      if w < 0 || h < 0 {
        return Fail(EINVAL);
      }
      if refcount != 0 && resizeCallback != Null && !approve {
        return Fail(EBUSY);
      }
      r := Resize(w, h);
    }

    /** `caca_get_canvas_width` (caca/canvas.c:244-247). */
    function GetCanvasWidth(): (r: int)
      reads this
      requires Valid()
      ensures r == frames[frame].width && 0 <= r
    {
      width
    }

    /** `caca_get_canvas_height` (caca/canvas.c:258-261). */
    function GetCanvasHeight(): (r: int)
      reads this
      requires Valid()
      ensures r == frames[frame].height && 0 <= r
    {
      height
    }

    /** `caca_get_canvas_chars` (caca/canvas.c:277-280): the current frame's
        codepoint buffer, of width * height cells. */
    function GetCanvasChars(): (r: array<uint32>)
      reads this
      requires Valid()
      ensures r == frames[frame].chars && r.Length == width * height
    {
      chars
    }

    /** `caca_get_canvas_attrs` (caca/canvas.c:296-299): the current frame's
        attribute buffer, of width * height cells. */
    function GetCanvasAttrs(): (r: array<uint32>)
      reads this
      requires Valid()
      ensures r == frames[frame].attrs && r.Length == width * height
    {
      attrs
    }

    /** `caca_get_dirty_rectangle` (caca/canvas.c:332-341). */
    function GetDirtyRectangle(): (r: Rect)
      reads this
      ensures r == dirty
    {
      dirty
    }

    /** `caca_add_dirty_rectangle` (caca/canvas.c:364-388), against the size
        the canvas has at the time of the call. */
    method AddDirtyRectangle(xmin: int, xmax: int, ymin: int, ymax: int)
      modifies this`dirty
      ensures dirty == Add(old(dirty), Rect(xmin, xmax, ymin, ymax), width, height)
    {
      if xmin > xmax || ymin > ymax {
        return;
      }
      if xmax < 0 || xmin >= width || ymax < 0 || ymin >= height {
        return;
      }
      if xmin < dirty.xmin {
        dirty := dirty.(xmin := xmin);
      }
      if xmax > dirty.xmax {
        dirty := dirty.(xmax := xmax);
      }
      if ymin < dirty.ymin {
        dirty := dirty.(ymin := ymin);
      }
      if ymax > dirty.ymax {
        dirty := dirty.(ymax := ymax);
      }
    }

    /** `caca_set_dirty_rectangle` (caca/canvas.c:407-426). */
    method SetDirtyRectangle(xmin: int, xmax: int, ymin: int, ymax: int)
      modifies this`dirty
      ensures dirty == Set(Rect(xmin, xmax, ymin, ymax), width, height)
    {
      var r := Rect(xmin, xmax, ymin, ymax);
      if xmin > xmax || ymin > ymax || xmax < 0 || xmin >= width || ymax < 0 || ymin >= height {
        r := Rect(width, -1, height, -1);
      }
      dirty := r;
    }

    /** `caca_free_canvas` (caca/canvas.c:440-463): a managed canvas cannot be
        freed (EBUSY); otherwise the canvas is released. */
    method FreeCanvas() returns (r: Status)
      ensures r == Fail(EBUSY) <==> refcount != 0
      ensures r == Ok <==> refcount == 0
    {
      if refcount != 0 {
        return Fail(EBUSY);
      }
      r := Ok;
    }

    // -------------------------------------------------------------------------
    // caca_resize

    /** `_caca_save_frame_info`: the frame list once the shortcuts' size and
        attribute have gone back into the current frame. */
    function SavedFrames(): (fs: seq<Frame>)
      reads this
      requires Valid()
      ensures |fs| == |frames| && Sized(fs, width * height)
      ensures forall i :: 0 <= i < |fs| ==>
                fs[i] == frames[i].(width := width, height := height, curattr := SavedAttr(i))
    {
      frames[frame := frames[frame].(width := width, height := height, curattr := curattr)]
    }

    /** `_caca_load_frame_info`: the shortcuts are taken from the current frame. */
    method LoadFrameInfo()
      requires frame < |frames|
      modifies this`width, this`height, this`chars, this`attrs, this`curattr
      ensures width == frames[frame].width && height == frames[frame].height
      ensures chars == frames[frame].chars && attrs == frames[frame].attrs
      ensures curattr == frames[frame].curattr
    {
      width := frames[frame].width;
      height := frames[frame].height;
      chars := frames[frame].chars;
      attrs := frames[frame].attrs;
      curattr := frames[frame].curattr;
    }

    /** `caca_resize` (caca/canvas.c:494-644).  The buffers grow before any
        cell moves and shrink only after; allocation may fail with ENOMEM, which
        leaves the canvas unusable. */
    method Resize(w: int, h: int) returns (r: Status)
      requires Valid() && 0 <= w && 0 <= h
      modifies this, Buffers()
      ensures r == Ok || r == Fail(ENOMEM)
      ensures r == Ok ==> ResizedCanvas(w, h)
      ensures r == Ok ==> ResizedCells(w, h)
      ensures r == Ok ==> ResizedFrames(w, h)
      ensures r == Ok ==> fresh(Buffers() - old(Buffers()))
    {
      var ow, oh := width, height;
      var saved := SavedFrames();
      // The steps take the new size from w and h, so the canvas is given it
      // after them; and the canvas itself is not one of the buffers they move.
      assert this !in BuffersOf(saved);
      var ok;
      frames, dirty, ok := ResizeFrames(saved, dirty, ow, oh, w, h);
      width, height := w, h;
      if !ok {
        return Fail(ENOMEM);
      }
      LoadFrameInfo();
      r := Ok;
    }
  }
}
