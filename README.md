# libcaca canvas and event core, in Dafny

This project models two parts of libcaca.

The first is the **canvas** (`caca/canvas.c`). A canvas is a list of frames. Each frame holds a codepoint buffer and an attribute buffer of width × height 32-bit cells, plus a cursor, a handle, a current attribute and a name. The model covers:

- the lock a display driver takes on a canvas (`caca_manage_canvas`, `caca_unmanage_canvas`), and the veto it can put on a size change (`caca_set_canvas_size`);
- the single dirty rectangle (`caca_get/add/set_dirty_rectangle`);
- creation, the getters and freeing;
- `caca_resize`, which reflows every frame's buffers in place.

The resize is modelled on arrays, loop by loop, as the C code does it:

1. The buffers are reallocated first when the area grows.
2. Rows are moved: bottom-up and right-to-left when the width grows, top-down from row 1 when it shrinks.
3. New bottom rows are blanked with `' '` and the frame's attribute.
4. The buffers are reallocated only afterwards when the area shrinks.
5. Cursors are clamped to the new size.

Each loop is proved against a function on sequences (module `Grid`), and those functions are proved to compose into `Reflow`. `Reflow` keeps the common top-left corner and makes every other cell blank. Every array access is bounds-checked, and each loop invariant states that the cells not yet read still hold their original contents. Together these show that every access stays below max(old area, new area) and that no source cell is overwritten before it is read.

The second is the **driver-independent part of input handling** (`caca/event.c`):

- the fixed-capacity event queue (`_push_event`, `_pop_event`), with pop shifting the array down;
- the key-autorepeat emulation of `_get_next_event`, used by the S-Lang and ncurses drivers;
- the event-mask loop of `caca_get_event`;
- the clamping of the mouse coordinates.

The driver's event source and the key timer are explicit inputs. Each is a sequence of what its successive calls return. Events and tick counters are C `unsigned int`s: additions and subtractions wrap modulo 2^32, and `&` and `|` are defined bit by bit.

Each imperative operation is a method of a class (`CacaCanvas.Canvas`, `CacaEvent.Caca`) or a method over arrays. Its postcondition ties the new state to a function of the old state. The functions carry the properties, as lemmas.

Some behaviour of the code may surprise a reader. The model follows the code in each case:

- A canvas starts with the dirty box (0, -1, 0, -1), not the canonical empty box (width, -1, height, -1). Creating a non-empty canvas therefore leaves the one-column box (0, 0, -1, h - 1): column 0 from row -1 to row h - 1, not the whole canvas, and every later add grows from it. See `Dirty.CreatedDirty`.
- The three dirty calls inside `caca_resize` pass their arguments as if the order were (x1, y1, x2, y2). The callee takes (xmin, xmax, ymin, ymax). They also run after the canvas already has its new size. As a result, when only the width grows on a canvas that already had columns, the new columns are not marked. When both grow, the box mixes the old and new sizes and can miss new cells, for example from 2 x 2 to 4 x 4. See `Dirty.WidenedColumnsNotMarked` and `Dirty.GrownCornerNotMarked`.
- `caca_add_dirty_rectangle` and `caca_set_dirty_rectangle` do not clip. A box that sticks out of the canvas is stored with its bounds as given.
- A failed reallocation inside `caca_resize` returns ENOMEM. It leaves the canvas at its new size, and any buffers already reallocated stay that way.
- When the autorepeat fires, the event just fetched is pushed to the back of the queue. When other events are pending, this changes their order. See `CacaEvent.RepeatReorders`.

## Model

| member | source | states |
|---|---|---|
| Grid.Reflow | caca/canvas.c:504-506 | the grid a resize to w x h leaves has exactly w * h cells, the new area |
| Grid.ReflowKeepsCorner | caca/canvas.c:525-602 | after a resize, a cell in the common top-left corner holds its old value and every other cell of the new grid holds the fill |
| Grid.Restride | caca/canvas.c:525-582 | moving rows to the new stride keeps the buffer's length |
| Grid.RestrideAt | caca/canvas.c:541-579 | after the row move, cell (x, y) of a moved row holds old cell y * ow + x when x < ow, and the fill otherwise |
| Grid.Filled | caca/canvas.c:594-598 | blanking a range of cells keeps the buffer's length |
| Grid.Reshaped | caca/canvas.c:525-609 | the row move followed by the blanking keeps the length of a buffer that holds the larger area |
| Grid.ResizeReflows | caca/canvas.c:508-626 | on a buffer grown to max(old area, new area) with the old grid as its prefix, the row move and the blanking leave exactly the reflowed grid in the first w * h cells |
| Grid.ReflowFromEmpty | caca/canvas.c:103 | a grid resized out of an empty one (as `caca_create_canvas` does) is blank everywhere |
| Grid.ReflowSameSize | caca/canvas.c:494-644 | a resize to the same size changes no cell |
| Grid.ReflowGrowShrink | caca/canvas.c:494-644 | growing a grid and shrinking it back restores it exactly |
| Grid.ReflowShrinkGrow | caca/canvas.c:494-644 | shrinking and growing back keeps the retained corner and blanks everything else: lost cells are not recovered |
| FrameBuffers.Realloc | caca/canvas.c:513-516 | `realloc` yields a fresh buffer of n cells whose common prefix with the old buffer holds the old cells; only a non-empty request can fail, and a failed one yields NULL (an empty buffer) |
| FrameBuffers.WidenRow | caca/canvas.c:543-556 | one row of a widening: the row's old cells are at their new place, the cells the row gains hold ' ' and the frame's attribute, and no other cell changes; the backward copy reads each source cell before overwriting it |
| FrameBuffers.WidenRows | caca/canvas.c:531-558 | the bottom-up, right-to-left row move of one frame's two buffers leaves exactly the restrided grid |
| FrameBuffers.NarrowRow | caca/canvas.c:575-579 | one row of a narrowing: the row's first w cells are at their new place and no other cell changes; the forward copy reads each source cell before overwriting it |
| FrameBuffers.NarrowStep | caca/canvas.c:573-580 | moving row y keeps the loop's invariant: rows before it hold their new contents, the rest their original ones |
| FrameBuffers.NarrowRows | caca/canvas.c:562-582 | the top-down row move from row 1 of one frame's two buffers leaves exactly the restrided grid |
| FrameBuffers.FillCells | caca/canvas.c:585-599 | the new bottom rows of one frame hold ' ' and the frame's attribute; every other cell is unchanged |
| Dirty.Add | caca/canvas.c:364-388 | an empty or entirely out-of-bounds box leaves the dirty box alone; any other box grows each bound just far enough to take it in, never shrinking one and never clipping |
| Dirty.Set | caca/canvas.c:407-426 | an empty or entirely out-of-bounds box is stored as (width, -1, height, -1); any other box is stored as given |
| Dirty.WidenDirty | caca/canvas.c:560 | the first call only grows the box; on a canvas that had columns it is always ignored; from width 0 it marks column 0 from row w - 1 to row oh - 1, and only when w is at most both heights |
| Dirty.TallerDirty | caca/canvas.c:601 | the second call only grows the box; when the height grows on a canvas of positive width with ow <= h, it marks columns 0 to oh and rows ow - 1 to h - 1, the new bottom rows with the second and third arguments swapped; otherwise it is ignored |
| Dirty.CornerDirty | caca/canvas.c:607-609 | the third call only grows the box; when both dimensions grow it marks columns ow to oh and rows w - 1 to h - 1 if ow <= oh and w <= h, and is ignored otherwise |
| Dirty.ResizeDirty | caca/canvas.c:560-609 | the three calls of the resize only ever grow the dirty box |
| Dirty.AddCovers | caca/canvas.c:375-385 | every cell of the old box, and every cell of an accepted new box, lies in the box that `add` leaves |
| Dirty.AddIdempotent | caca/canvas.c:364-388 | adding the same box twice is adding it once |
| Dirty.AddCommutes | caca/canvas.c:364-388 | the order in which two boxes are added does not matter |
| Dirty.ClearedIsNeutral | caca/canvas.c:410-418 | after a reset by `set`, adding a box yields exactly that box, or the reset box if it is rejected |
| Dirty.InitialNotNeutral | caca/canvas.c:96-99 | the starting box is empty but not neutral: on a 10 x 10 canvas, adding cell (5, 5) marks the square from (0, 0) to (5, 5) |
| Dirty.SetIdempotent | caca/canvas.c:407-426 | `set` is idempotent on a canvas of non-negative size |
| Dirty.CreatedDirty | caca/canvas.c:96-103 | a new non-empty canvas ends up with the one-column box (0, 0, -1, h - 1): a non-empty box covering column 0 from row -1 to row h - 1, not the whole canvas; an empty canvas keeps the starting box |
| Dirty.WidenedColumnsNotMarked | caca/canvas.c:560 | when only the width grows on a canvas that had columns, the dirty box is unchanged: the new columns are not marked |
| Dirty.GrownCornerNotMarked | caca/canvas.c:601-609 | growing a reset 2 x 2 canvas to 4 x 4 marks x in [0, 2], y in [1, 3], which misses the new cells (3, 3) and (3, 0) |
| CacaCanvas.ReallocFrame | caca/canvas.c:513-521 | one iteration of the growth loop: both buffers are reallocated to n cells keeping their prefix, the rest of the frame is unchanged, and failure is possible only for a non-empty area |
| CacaCanvas.ReallocFrames | caca/canvas.c:508-523 | every frame's buffers become fresh, unshared buffers of n cells that keep their prefixes; the first failed allocation of a non-empty area ends the loop with failure |
| CacaCanvas.WidenFrames | caca/canvas.c:536-558 | each frame's two buffers become their restrided grids, with its own attribute in the new cells |
| CacaCanvas.NarrowFrames | caca/canvas.c:568-581 | each frame's two buffers become their restrided grids |
| CacaCanvas.FillFrames | caca/canvas.c:587-599 | in each frame, the new bottom rows are blank with the frame's attribute and nothing else changes |
| CacaCanvas.ClampFrames | caca/canvas.c:628-638 | each frame takes the new size, a cursor beyond it is pulled back onto its edge, and a cursor inside it is unchanged |
| CacaCanvas.MoveRows | caca/canvas.c:525-561 | step 2 leaves the buffers alone when the width is unchanged and otherwise restrides them, and the dirty box takes the first call of the resize |
| CacaCanvas.FillRows | caca/canvas.c:584-609 | step 3 blanks the new bottom rows only when the height grows, and the dirty box takes the second and third calls of the resize |
| CacaCanvas.Reshape | caca/canvas.c:525-609 | steps 2 and 3 turn each buffer holding the larger area into its reshaped grid, and the dirty box into what the resize's three calls make of it |
| CacaCanvas.GrowAndReshape | caca/canvas.c:508-609 | steps 1 to 3: storage grows before any cell moves, and on success the first w * h cells of every buffer hold the reflowed grid, and every buffer is the old one or freshly allocated |
| CacaCanvas.Shrink | caca/canvas.c:611-626 | step 4 reallocates to the smaller area only after the moves, keeping the first new-area cells of each buffer, which is the old one or freshly allocated |
| CacaCanvas.ResizeFrames | caca/canvas.c:508-638 | on success every frame is w x h with its cursor clamped, its buffers hold exactly w * h cells of the reflowed grid, none is shared, each is the old one or freshly allocated, and the dirty box has taken the resize's three calls |
| CacaCanvas.Canvas.constructor | caca/canvas.c:71-101 | a canvas starts unmanaged with one empty frame named "frame#00000000", cursor and handle at the origin, the default attribute, and dirty box (0, -1, 0, -1) |
| CacaCanvas.Canvas.CreateCanvas | caca/canvas.c:56-118 | EINVAL exactly when a size is negative, before any allocation; otherwise the result is ENOMEM, or a width x height unmanaged canvas whose every cell is ' ' with the default attribute, with cursor and handle at the top-left corner, one frame named "frame#00000000", and freshly allocated buffers |
| CacaCanvas.Canvas.Manage | caca/canvas.c:138-151 | a managed canvas fails with EBUSY and is left alone; otherwise the callback and its argument are stored and the canvas becomes managed |
| CacaCanvas.Canvas.Unmanage | caca/canvas.c:172-184 | it fails with EINVAL exactly when the canvas is unmanaged or the callback or argument differ from the stored pair, and then changes nothing; on success only the managed mark is cleared |
| CacaCanvas.Canvas.SetCanvasSize | caca/canvas.c:217-233 | EINVAL exactly for a negative size; EBUSY exactly when a managed canvas with a non-NULL callback is refused; both change nothing; otherwise the outcome is that of `caca_resize`, so a NULL callback does not block; on success every buffer not held before is freshly allocated |
| CacaCanvas.Canvas.GetCanvasWidth | caca/canvas.c:244-247 | the width is the current frame's width and is not negative |
| CacaCanvas.Canvas.GetCanvasHeight | caca/canvas.c:258-261 | the height is the current frame's height and is not negative |
| CacaCanvas.Canvas.GetCanvasChars | caca/canvas.c:277-280 | the codepoint buffer returned is the current frame's, of width * height cells |
| CacaCanvas.Canvas.GetCanvasAttrs | caca/canvas.c:296-299 | the attribute buffer returned is the current frame's, of width * height cells |
| CacaCanvas.Canvas.GetDirtyRectangle | caca/canvas.c:332-341 | the four bounds returned are the stored ones |
| CacaCanvas.Canvas.AddDirtyRectangle | caca/canvas.c:364-388 | the dirty box becomes what `add` makes of it against the current size |
| CacaCanvas.Canvas.SetDirtyRectangle | caca/canvas.c:407-426 | the dirty box becomes what `set` makes of the given one against the current size |
| CacaCanvas.Canvas.FreeCanvas | caca/canvas.c:440-463 | freeing fails with EBUSY exactly when the canvas is managed, and succeeds otherwise |
| CacaCanvas.Canvas.SavedFrames | caca/canvas.c:502 | saving the frame info puts the canvas's size and attribute into the current frame and changes no buffer |
| CacaCanvas.Canvas.LoadFrameInfo | caca/canvas.c:641 | the canvas's shortcuts are taken from the current frame |
| CacaCanvas.Canvas.Resize | caca/canvas.c:494-644 | the result is Ok or ENOMEM; on Ok the canvas and every frame are w x h, every buffer is the reflowed grid (the corner kept, ' ' and the frame's attribute elsewhere), cursors are clamped, and the dirty box has taken the three calls; every buffer not held before is freshly allocated, so the canvas can be resized again |
| CacaEvent.Add | caca/event.c:184-185 | adding ticks to an `unsigned int` counter is exact below 2^32 and wraps by 2^32 above it |
| CacaEvent.Sub | caca/event.c:194 | subtracting on `unsigned int` is exact when it does not go below 0 and wraps by 2^32 when it does |
| CacaEvent.And | caca/event.c:219-223 | a bitwise and has no bit that either operand lacks, so it is at most each of them |
| CacaEvent.Or | caca/event.c:195-213 | a bitwise or is at least each operand and at most their sum |
| CacaEvent.Bit | caca/event.c:210 | bit n of a value, counting from the lowest, is 0 or 1 |
| CacaEvent.AndPow2 | caca/event.c:210 | and-ing with the single bit 2^n keeps exactly bit n of the value |
| CacaEvent.BitAnd | caca/event.c:223 | `a & b` on `unsigned int` is at most each operand |
| CacaEvent.BitOr | caca/event.c:195 | `a | b` on `unsigned int` is at least each operand |
| CacaEvent.IsKeyPress | caca/event.c:210 | `event & CACA_EVENT_KEY_PRESS` is nonzero exactly when bit 24 of the event is set |
| CacaEvent.OrBelow | caca/event.c:195 | the or of two 32-bit values is a 32-bit value |
| CacaEvent.OrAbove | caca/event.c:195 | or-ing a type bit above a 24-bit key adds it, so `KEY_PRESS | key` keeps the key in the low bits |
| CacaEvent.Push | caca/event.c:781-787 | a push never overfills the queue and adds at most one event |
| CacaEvent.PushAppends | caca/event.c:783-786 | a push appends the event at the back or changes nothing, so the queue never holds `CACA_EVENT_NONE` |
| CacaEvent.PushDrops | caca/event.c:783-784 | a push to a full queue, or of `CACA_EVENT_NONE`, changes nothing |
| CacaEvent.Pop | caca/event.c:789-803 | an empty queue yields `CACA_EVENT_NONE` and stays as it is; otherwise the oldest event is returned and the others stay in order |
| CacaEvent.PushAllAppends | caca/event.c:781-787 | pushes that fit, of events other than `CACA_EVENT_NONE`, append them in order |
| CacaEvent.DrainIsOrder | caca/event.c:789-803 | popping until empty returns the queue's events oldest first |
| CacaEvent.Fifo | caca/event.c:781-803 | the queue is first-in first-out: events pushed while there is room come out in the order they went in, after those already pending |
| CacaEvent.Lowlevel | caca/event.c:230-238 | fetching an event changes only the queue and the driver's source, and, with the driver's own pushes left out, never lengthens the queue |
| CacaEvent.LowlevelShrinks | caca/event.c:230-238 | fetching never lengthens what is still to come, and shortens it whenever it returns an event |
| CacaEvent.LowlevelTakesFirst | caca/event.c:234-238 | fetching returns the first event still to come, pending events before the driver's, and removes exactly that one |
| CacaEvent.Tick | caca/event.c:183 | a timer reading is the clock's next value, or 0 once the clock is exhausted |
| CacaEvent.Ticked | caca/event.c:182-185 | reading the key timer changes only the clock and the two tick counters |
| CacaEvent.Repeat | caca/event.c:192-196 | a repeat returns a key press (at least `CACA_EVENT_KEY_PRESS`, so never `CACA_EVENT_NONE`), keeps the key held and its tick count, leaves the driver's events alone, and puts the fetched event behind the pending ones, or drops it |
| CacaEvent.Settle | caca/event.c:206-226 | the event is returned as it is or replaced by a release of the held key; a replaced event is pushed back and the key forgotten; the held key becomes nothing, stays, or becomes the new key's low bits; `CACA_EVENT_NONE` is returned only with the state unchanged |
| CacaEvent.NextEvent | caca/event.c:164-228 | `_get_next_event` never overfills the queue |
| CacaEvent.NextEventSane | caca/event.c:164-228 | `_get_next_event` keeps the event state sane: the queue fits, holds no `CACA_EVENT_NONE`, and the held key fits in 24 bits |
| CacaEvent.PassThrough | caca/event.c:171-179 | for a driver other than S-Lang or ncurses, `_get_next_event` returns the fetched event and changes nothing else |
| CacaEvent.RepeatFires | caca/event.c:187-196 | while a key is held past the trigger delay, a press of it is returned, the fetched event goes to the back of the queue, the key stays held, and the repeat counter drops by one period |
| CacaEvent.RepeatReorders | caca/event.c:192-195 | with two key presses pending, a repeat that fires returns the held key and leaves the two pending presses in swapped order |
| CacaEvent.HeldKeyReleased | caca/event.c:206-216 | while a key is held and the repeat does not fire, an event that is not a press of that key, arriving after the key expired or being any key press, is pushed back; a release of the held key is returned and the key is forgotten |
| CacaEvent.NewKeyHeld | caca/event.c:218-224 | with no key held, a key press (other than the bare type bit, which the swallow branch takes) is returned, its key is remembered without the type bits, and both tick counters restart |
| CacaEvent.RepeatLowers | caca/event.c:187-196 | a repeat returns an event and lowers the termination measure even when it consumes none: it uses a timer reading or one period of the counter |
| CacaEvent.SettleLowers | caca/event.c:206-226 | the release and pass-through branches never lengthen what is still to come, and they lower the measure whenever they return an event |
| CacaEvent.Progress | caca/event.c:91-97 | with the key timer giving finitely many readings, every nonzero answer of `_get_next_event` lowers the measure, so the mask loop of `caca_get_event` ends, even while a held key repeats |
| CacaEvent.RepeatKeepsFiring | caca/event.c:182-196 | with nothing left to fetch, a key held past the trigger delay and a timer reading of at least one period, the repeat fires again, only the clock and the counters change, and the repeat counter does not go down; with a mask that leaves out the press, the mask loop goes on from that state, so a timer that keeps answering so never lets it return |
| CacaEvent.Filter | caca/event.c:91-97 | the mask loop returns `CACA_EVENT_NONE` or an event sharing a bit with the mask |
| CacaEvent.MaskedEvent | caca/event.c:86-98 | a zero mask returns `CACA_EVENT_NONE` at once and fetches nothing; otherwise the event returned is `CACA_EVENT_NONE` or matches the mask |
| CacaEvent.FirstMatch | caca/event.c:91-97 | the position of the first event that is `CACA_EVENT_NONE` or matches the mask: every event before it is neither |
| CacaEvent.FilterStep | caca/event.c:91-97 | without autorepeat, one turn of the mask loop fetches the first event still to come and stops on it or goes on from the rest |
| CacaEvent.GetEventFirstMatch | caca/event.c:91-97 | without autorepeat, `caca_get_event` returns the first event still to come that is `CACA_EVENT_NONE` or matches the mask (or `CACA_EVENT_NONE` if there is none); it drops the events before it and keeps those after it |
| CacaEvent.Clamp | caca/event.c:135-158 | a stored coordinate below the size is returned unchanged; one at or beyond it becomes size - 1 in unsigned arithmetic, so it lies below any positive size |
| CacaEvent.ClampIdempotent | caca/event.c:135-141 | clamping twice is clamping once; on a canvas of size 0 the clamp wraps to 0xffffffff |
| CacaEvent.Caca.constructor | caca/event.c:781-803 | the event state that `_push_event` and `_pop_event` work on starts with an empty queue of capacity `EVENTBUF_LEN`, no key held and zero counters, with the driver, the timer and the canvas size it is given; it then satisfies the queue invariant (its initialisation in caca.c is not part of this model) |
| CacaEvent.Caca.PushEvent | caca/event.c:781-787 | the array's queue becomes the pushed queue: the event is written at index `queue` and earlier entries are untouched |
| CacaEvent.Caca.PopEvent | caca/event.c:789-803 | the returned event and the array's queue are what popping gives: `buf[0]`, with the rest shifted down in order |
| CacaEvent.Caca.LowlevelEvent | caca/event.c:230-238 | the event and new state are those of fetching, pending events first |
| CacaEvent.Caca.ReadTimer | caca/event.c:182-185 | the new state is that of one timer reading added to both counters |
| CacaEvent.Caca.RepeatKey | caca/event.c:192-196 | the event and new state are those of a repeat that fires |
| CacaEvent.Caca.SettleEvent | caca/event.c:206-226 | the event and new state are those of the release or autorepeat-entry branch |
| CacaEvent.Caca.GetNextEvent | caca/event.c:164-228 | the event and new state, across the swallowing self-call, are those of `_get_next_event` |
| CacaEvent.Caca.GetEvent | caca/event.c:86-98 | the event and new state are those of the mask loop (which ends here because the key timer's readings are finite); without autorepeat, the event is the first one still to come that is `CACA_EVENT_NONE` or matches the mask, and the events after it are kept |
| CacaEvent.Caca.GetMouseX | caca/event.c:135-141 | the clamped x coordinate is written back and returned |
| CacaEvent.Caca.GetMouseY | caca/event.c:152-158 | the clamped y coordinate is written back and returned |

## Left out

- The platform branches of `_lowlevel_event` (caca/event.c:241-775: X11, ncurses, S-Lang, conio, Win32, GLUT) and the X11 driver call library input and rendering code. The driver is the event sequence `source`.
- CacaEvent.Lowlevel: the drivers' own calls to `_push_event` are left out. These are the ncurses mouse clicks (caca/event.c:387-489), the S-Lang mouse events (579-580) and the conio key release (632). In C, one fetch can thus lengthen the queue. It can also place driver events ahead of an event that `_get_next_event` pushes back later. The model's queue changes only by the pushes of `_get_next_event`.
- CacaEvent.Progress: the end of the mask loop rests on `clock` being a finite sequence that reads 0 once exhausted. In C, the key timer never runs out. While a key is held, the mask leaves out its press, and every reading is at least `AUTOREPEAT_RATE`, the repeat fires on every turn and `caca_get_event` does not return. `CacaEvent.RepeatKeepsFiring` shows one such turn.
- `_caca_getticks` reads a clock. It is the sequence `clock` of its successive readings.
- The compile-time driver selection (`USE_SLANG`, `USE_NCURSES`, `USE_CONIO`) is modelled as always compiled in. The run-time test for the S-Lang or ncurses driver is the flag `autorepeat`.
- `caca_wait_event` is a blocking loop around a sleep.
- `caca_rand` uses floating point and a hidden seed taken from the process id and the time.
- The `cucul_*` aliases are linker aliases with no behaviour.
- The values of `CACA_EVENT_KEY_PRESS` (0x01000000), `CACA_EVENT_KEY_RELEASE` (0x02000000) and `EVENTBUF_LEN` (10) are assumed. caca.h and caca_internals.h are not part of this model. The general properties hold for any positive capacity; the example `CacaEvent.RepeatReorders` needs room for two events.
- The initialisation of the event state in `caca_init` is not part of this model. `CacaEvent.Caca.constructor` stands for it: empty queue, no key held.
- `_caca_save_frame_info` and `_caca_load_frame_info` are not part of this model. Save is modelled as copying the size and the attribute into the current frame; load as copying the size, the buffers and the attribute from it. frame.c is not part of this model.
- `caca_set_color_ansi` is not part of this model. It becomes the attribute parameter `defaultAttr`.
- `caca_canvas_set_figfont` and `strdup` are not part of this model.
- The resize callback is foreign code. Its answer is the parameter `approve`.
- CacaCanvas.Canvas.CreateCanvas: the `malloc` failures are one nondeterministic ENOMEM outcome, and memory is not freed on the failure paths.
- CacaCanvas.Canvas.FreeCanvas: releasing the buffers, names and canvas is not modelled; only the EBUSY check is.
- CacaCanvas.Canvas.Resize: after ENOMEM the contract states only the status. The canvas is then left partly reallocated and is not used again.
- CacaCanvas.Canvas.Resize: the C int overflow of width * height is not modelled; the area is an unbounded integer.
- CacaCanvas.Canvas.Resize: the canvas takes its new width and height after the moves, not before them. The steps read the new size from their arguments, so the effect is the same. This includes the three dirty calls, which are checked against the new size.
- CacaCanvas.Canvas.GetCanvasChars: the `uint8_t const *` cast is not modelled; the getter returns the buffer itself.
- CacaEvent.GetEventFirstMatch: proved only without autorepeat. With autorepeat, `CacaEvent.Filter` states only that the result is `CACA_EVENT_NONE` or matches the mask, and `CacaEvent.Progress` states that the loop ends for a finite key timer.
- CacaEvent.Caca.GetMouseX: the canvas size is taken as the unsigned value the C comparison converts it to.
