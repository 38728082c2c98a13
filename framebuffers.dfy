/** The in-place loops of caca_resize (caca/canvas.c:508-626) on one frame's
    pair of buffers, `chars` (codepoints) and `attrs` (attributes).

    Every method is proved against the step function of module Grid that gives
    its meaning.  Array bounds are checked by Dafny at every access, and the
    caller hands in buffers of length max(old area, new area), so every read and
    write stays below that bound.  The loop invariants name the cells still
    holding their original contents; each read is of such a cell, which is the
    proof that no source cell is overwritten before it is read. */
module FrameBuffers {
  import opened Grid

  /** The codepoint the resize writes into newly exposed cells. */
  const SPACE: uint32 := 0x20

  /** a and b agree on indices [lo, hi). */
  ghost predicate SameOn<T>(a: seq<T>, b: seq<T>, lo: int, hi: int)
    requires 0 <= lo && hi <= |a| && hi <= |b|
  {
    forall i :: lo <= i < hi ==> a[i] == b[i]
  }

  /** C `realloc(a, n * sizeof(uint32_t))`: a fresh buffer of n cells whose common
      prefix with a holds a's cells.  Allocation of a non-empty block may fail;
      the failed call yields NULL, modelled as an empty buffer. */
  method Realloc(a: array<uint32>, n: nat) returns (b: array<uint32>, ok: bool)
    ensures fresh(b)
    ensures ok ==> b.Length == n && b[..Min(n, a.Length)] == a[..Min(n, a.Length)]
    ensures !ok ==> n > 0 && b.Length == 0
  {
    var outOfMemory: bool :| true;
    if n > 0 && outOfMemory {
      b, ok := new uint32[0], false;
    } else {
      b := new uint32[n](i reads a => if 0 <= i < a.Length then a[i] else 0);
      ok := true;
    }
  }

  /** One row of step 2 when the width grows (caca/canvas.c:543-556): the row's
      `ow` cells at `src` are copied to `dst` from the last to the first, then
      the `w - ow` cells the row gains are given a space and `attr`, from the
      last to the first.  The destination never starts before the source, so
      the backward copy reads each source cell before it is overwritten. */
  method WidenRow(chars: array<uint32>, attrs: array<uint32>, src: nat, dst: nat, ow: nat, w: nat, attr: uint32)
    requires chars != attrs && chars.Length == attrs.Length
    requires src <= dst && ow < w && dst + w <= chars.Length
    modifies chars, attrs
    ensures forall i :: dst <= i < dst + ow ==>
              chars[i] == old(chars[i - dst + src]) && attrs[i] == old(attrs[i - dst + src])
    ensures forall i :: dst + ow <= i < dst + w ==> chars[i] == SPACE && attrs[i] == attr
    ensures forall i :: 0 <= i < chars.Length && !(dst <= i < dst + w) ==>
              chars[i] == old(chars[i]) && attrs[i] == old(attrs[i])
  {
    var x := ow;
    while x > 0
      invariant 0 <= x <= ow
      invariant forall i :: dst + x <= i < dst + ow ==>
                  chars[i] == old(chars[i - dst + src]) && attrs[i] == old(attrs[i - dst + src])
      invariant forall i :: 0 <= i < chars.Length && !(dst + x <= i < dst + ow) ==>
                  chars[i] == old(chars[i]) && attrs[i] == old(attrs[i])
    {
      x := x - 1;
      chars[dst + x] := chars[src + x];
      attrs[dst + x] := attrs[src + x];
    }
    x := w - ow;
    while x > 0
      invariant 0 <= x <= w - ow
      invariant forall i :: dst <= i < dst + ow ==>
                  chars[i] == old(chars[i - dst + src]) && attrs[i] == old(attrs[i - dst + src])
      invariant forall i :: dst + ow + x <= i < dst + w ==> chars[i] == SPACE && attrs[i] == attr
      invariant forall i :: 0 <= i < chars.Length && !(dst <= i < dst + ow) && !(dst + ow + x <= i < dst + w) ==>
                  chars[i] == old(chars[i]) && attrs[i] == old(attrs[i])
    {
      x := x - 1;
      chars[dst + ow + x] := SPACE;
      attrs[dst + ow + x] := attr;
    }
  }

  /** Step 2 when the width grows (caca/canvas.c:531-558): rows are moved from
      the last to the first. */
  method WidenRows(chars: array<uint32>, attrs: array<uint32>, ow: nat, w: nat, lines: nat, attr: uint32)
    requires chars != attrs && chars.Length == attrs.Length
    requires ow < w && lines * w <= chars.Length
    modifies chars, attrs
    ensures lines * ow <= chars.Length
    ensures chars[..] == Restride(old(chars[..]), ow, w, lines, SPACE)
    ensures attrs[..] == Restride(old(attrs[..]), ow, w, lines, attr)
  {
    MulMonoLeft(lines, ow, w);
    ghost var c0, a0 := chars[..], attrs[..];
    ghost var tc, ta := Restride(c0, ow, w, lines, SPACE), Restride(a0, ow, w, lines, attr);
    var n := chars.Length;
    var y := lines;
    while y > 0
      invariant 0 <= y <= lines && y * w <= n
      invariant SameOn(chars[..], c0, 0, y * w) && SameOn(attrs[..], a0, 0, y * w)
      invariant SameOn(chars[..], tc, y * w, n) && SameOn(attrs[..], ta, y * w, n)
    {
      y := y - 1;
      MulMonoLeft(y, ow, w);
      MulMonoRight(y + 1, lines, w);
      var src, dst := y * ow, y * w;
      assert dst + w == (y + 1) * w;
      WidenRow(chars, attrs, src, dst, ow, w, attr);
      forall i | dst <= i < dst + w
        ensures chars[i] == tc[i] && attrs[i] == ta[i]
      {
        RestrideAt(c0, ow, w, lines, SPACE, i - dst, y);
        RestrideAt(a0, ow, w, lines, attr, i - dst, y);
      }
    }
  }

  /** One row of step 2 when the width shrinks (caca/canvas.c:575-579): the
      first `w` cells at `src` are copied to `dst` from the first to the last.
      The destination never starts after the source, so the forward copy reads
      each source cell before it is overwritten. */
  method NarrowRow(chars: array<uint32>, attrs: array<uint32>, src: nat, dst: nat, w: nat)
    requires chars != attrs && chars.Length == attrs.Length
    requires dst <= src && src + w <= chars.Length
    modifies chars, attrs
    ensures forall i :: dst <= i < dst + w ==>
              chars[i] == old(chars[i - dst + src]) && attrs[i] == old(attrs[i - dst + src])
    ensures forall i :: 0 <= i < chars.Length && !(dst <= i < dst + w) ==>
              chars[i] == old(chars[i]) && attrs[i] == old(attrs[i])
  {
    var x := 0;
    while x < w
      invariant 0 <= x <= w
      invariant forall i :: dst <= i < dst + x ==>
                  chars[i] == old(chars[i - dst + src]) && attrs[i] == old(attrs[i - dst + src])
      invariant forall i :: 0 <= i < chars.Length && !(dst <= i < dst + x) ==>
                  chars[i] == old(chars[i]) && attrs[i] == old(attrs[i])
    {
      chars[dst + x] := chars[src + x];
      attrs[dst + x] := attrs[src + x];
      x := x + 1;
    }
  }

  /** Row y of step 2 when the width shrinks: rows before y already hold their
      new contents, rows from y on still hold their old ones; afterwards the
      same holds with y + 1. */
  method NarrowStep(chars: array<uint32>, attrs: array<uint32>, ow: nat, w: nat, lines: nat, attr: uint32,
                    y: nat, ghost c0: seq<uint32>, ghost a0: seq<uint32>)
    requires chars != attrs && chars.Length == attrs.Length == |c0| == |a0|
    requires w < ow && lines * ow <= chars.Length && lines * w <= chars.Length
    requires 1 <= y < lines && y * w <= chars.Length
    requires SameOn(chars[..], Restride(c0, ow, w, lines, SPACE), 0, y * w)
    requires SameOn(attrs[..], Restride(a0, ow, w, lines, attr), 0, y * w)
    requires SameOn(chars[..], c0, y * w, chars.Length) && SameOn(attrs[..], a0, y * w, chars.Length)
    modifies chars, attrs
    ensures (y + 1) * w <= chars.Length
    ensures SameOn(chars[..], Restride(c0, ow, w, lines, SPACE), 0, (y + 1) * w)
    ensures SameOn(attrs[..], Restride(a0, ow, w, lines, attr), 0, (y + 1) * w)
    ensures SameOn(chars[..], c0, (y + 1) * w, chars.Length)
    ensures SameOn(attrs[..], a0, (y + 1) * w, chars.Length)
  {
    MulMonoLeft(y, w, ow);
    MulMonoRight(y + 1, lines, ow);
    MulMonoRight(y + 1, lines, w);
    var src, dst := y * ow, y * w;
    assert src + ow == (y + 1) * ow && dst + w == (y + 1) * w;
    NarrowRow(chars, attrs, src, dst, w);
    ghost var tc, ta := Restride(c0, ow, w, lines, SPACE), Restride(a0, ow, w, lines, attr);
    forall i | dst <= i < dst + w
      ensures chars[i] == tc[i]
    {
      RestrideAt(c0, ow, w, lines, SPACE, i - dst, y);
    }
    forall i | dst <= i < dst + w
      ensures attrs[i] == ta[i]
    {
      RestrideAt(a0, ow, w, lines, attr, i - dst, y);
    }
  }

  /** Step 2 when the width shrinks (caca/canvas.c:562-582): rows are moved from
      the second to the last; row 0 is already in place. */
  method NarrowRows(chars: array<uint32>, attrs: array<uint32>, ow: nat, w: nat, lines: nat, attr: uint32)
    requires chars != attrs && chars.Length == attrs.Length
    requires w < ow && lines * ow <= chars.Length
    modifies chars, attrs
    ensures lines * w <= chars.Length
    ensures chars[..] == Restride(old(chars[..]), ow, w, lines, SPACE)
    ensures attrs[..] == Restride(old(attrs[..]), ow, w, lines, attr)
  {
    MulMonoLeft(lines, w, ow);
    if lines == 0 {
      return;
    }
    ghost var c0, a0 := chars[..], attrs[..];
    ghost var tc, ta := Restride(c0, ow, w, lines, SPACE), Restride(a0, ow, w, lines, attr);
    var n := chars.Length;
    forall i | 0 <= i < w
      ensures tc[i] == c0[i] && ta[i] == a0[i]
    {
      RestrideAt(c0, ow, w, lines, SPACE, i, 0);
      RestrideAt(a0, ow, w, lines, attr, i, 0);
    }
    var y := 1;
    while y < lines
      invariant 1 <= y <= lines && y * w <= n
      invariant SameOn(chars[..], tc, 0, y * w) && SameOn(attrs[..], ta, 0, y * w)
      invariant SameOn(chars[..], c0, y * w, n) && SameOn(attrs[..], a0, y * w, n)
    {
      NarrowStep(chars, attrs, ow, w, lines, attr, y, c0, a0);
      y := y + 1;
    }
    forall i | lines * w <= i < n
      ensures tc[i] == c0[i] && ta[i] == a0[i]
    {
    }
  }

  /** Step 3 (caca/canvas.c:585-599): the `count` cells from `start` on, taken
      from the last to the first, get a space and `attr`. */
  method FillCells(chars: array<uint32>, attrs: array<uint32>, start: nat, count: nat, attr: uint32)
    requires chars != attrs && chars.Length == attrs.Length
    requires start + count <= chars.Length
    modifies chars, attrs
    ensures chars[..] == Filled(old(chars[..]), start, start + count, SPACE)
    ensures attrs[..] == Filled(old(attrs[..]), start, start + count, attr)
  {
    ghost var c0, a0 := chars[..], attrs[..];
    var x := count;
    while x > 0
      invariant 0 <= x <= count
      invariant forall i :: 0 <= i < chars.Length ==>
                  chars[i] == (if start + x <= i < start + count then SPACE else c0[i])
      invariant forall i :: 0 <= i < attrs.Length ==>
                  attrs[i] == (if start + x <= i < start + count then attr else a0[i])
    {
      x := x - 1;
      chars[start + x] := SPACE;
      attrs[start + x] := attr;
    }
  }
}
