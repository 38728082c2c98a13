/** The driver-independent part of libcaca's input handling (caca/event.c):
    the fixed-capacity event queue that the text drivers use to push an event
    back, the key-autorepeat emulation of `_get_next_event`, the event-mask
    loop of `caca_get_event`, and the clamping of the mouse coordinates.

    Events and tick counters are C `unsigned int`s, whose wrap-around and
    bitwise operators are written out below.  The event source of each platform driver becomes the
    sequence `source` of what its successive calls return (`CACA_EVENT_NONE`
    when it has nothing), and the key timer becomes the sequence `clock` of
    what its successive readings return (0 once it is exhausted). */
module CacaEvent {
  import opened Grid

  type Event = uint32

  const NONE: Event := 0
  /** `CACA_EVENT_KEY_PRESS` and `CACA_EVENT_KEY_RELEASE`: the event type
      lives in the top byte, the key in the low 24 bits. */
  const KEY_PRESS: Event := 0x0100_0000
  const KEY_RELEASE: Event := 0x0200_0000
  const KEY_BITS: Event := 0x00ff_ffff

  /** caca/event.c:66-72, in microseconds. */
  const AUTOREPEAT_THRESHOLD: uint32 := 200000
  const AUTOREPEAT_TRIGGER: uint32 := 300000
  const AUTOREPEAT_RATE: uint32 := 100000

  /** The capacity of the queue; any positive value would do. */
  const EVENTBUF_LEN: nat := 10

  // ---------------------------------------------------------------------------
  // Unsigned arithmetic

  /** `a + b` and `a - b` on `unsigned int`, modulo 2^32. */
  function Add(a: uint32, b: uint32): (r: uint32)
    ensures a as int + b as int < 0x1_0000_0000 ==> r as int == a as int + b as int
    ensures a as int + b as int >= 0x1_0000_0000 ==> r as int == a as int + b as int - 0x1_0000_0000
  {
    ((a as int + b as int) % 0x1_0000_0000) as uint32
  }

  function Sub(a: uint32, b: uint32): (r: uint32)
    ensures b <= a ==> r as int == a as int - b as int
    ensures a < b ==> r as int == a as int - b as int + 0x1_0000_0000
  {
    ((a as int - b as int) % 0x1_0000_0000) as uint32
  }

  function Pow2(n: nat): (r: nat)
    ensures r > 0
  {
    if n == 0 then 1 else 2 * Pow2(n - 1)
  }

  /** The bitwise and of a and b, one bit at a time from the lowest: it has no
      bit that either lacks. */
  function And(a: nat, b: nat): (r: nat)
    ensures r <= a && r <= b
    decreases a
  {
    if a == 0 || b == 0 then 0
    else 2 * And(a / 2, b / 2) + (if a % 2 == 1 && b % 2 == 1 then 1 else 0)
  }

  /** The bitwise or of a and b: it has every bit of either. */
  function Or(a: nat, b: nat): (r: nat)
    ensures a <= r && b <= r && r <= a + b
    decreases a
  {
    if a == 0 then b
    else if b == 0 then a
    else 2 * Or(a / 2, b / 2) + (if a % 2 == 1 || b % 2 == 1 then 1 else 0)
  }

  /** Or of two n-bit numbers is an n-bit number. */
  lemma {:induction false} OrBelow(a: nat, b: nat, n: nat)
    requires a < Pow2(n) && b < Pow2(n)
    ensures Or(a, b) < Pow2(n)
    decreases a
  {
    if a != 0 && b != 0 {
      OrBelow(a / 2, b / 2, n - 1);
    }
  }

  lemma Pow2Values()
    ensures Pow2(24) == KEY_PRESS as nat && Pow2(32) == 0x1_0000_0000
  {
    assert Pow2(8) == 0x100;
    assert Pow2(16) == 0x1_0000;
  }

  /** A bit above every bit of the key is or-ed in by addition. */
  lemma {:induction false} OrAbove(n: nat, key: nat)
    requires key < Pow2(n)
    ensures Or(Pow2(n), key) == Pow2(n) + key
  {
    if n > 0 && key != 0 {
      OrAbove(n - 1, key / 2);
    }
  }

  /** Bit n of a, counting from the lowest. */
  function Bit(a: nat, n: nat): (r: nat)
    ensures r <= 1
    decreases n
  {
    if n == 0 then a % 2 else Bit(a / 2, n - 1)
  }

  /** And-ing with the single bit 2^n keeps exactly bit n of a. */
  lemma {:induction false} AndPow2(a: nat, n: nat)
    ensures And(a, Pow2(n)) == if Bit(a, n) == 1 then Pow2(n) else 0
    decreases n
  {
    if n > 0 {
      var p := Pow2(n - 1);
      AndPow2(a / 2, n - 1);
      assert Pow2(n) == 2 * p && (2 * p) / 2 == p && (2 * p) % 2 == 0;
    }
  }

  /** `a & b` and `a | b` on `unsigned int`. */
  function BitAnd(a: uint32, b: uint32): (r: uint32)
    ensures r <= a && r <= b
  {
    And(a as nat, b as nat) as uint32
  }

  function BitOr(a: uint32, b: uint32): (r: uint32)
    ensures a <= r && b <= r
  {
    Pow2Values();
    OrBelow(a as nat, b as nat, 32);
    Or(a as nat, b as nat) as uint32
  }

  /** `event & CACA_EVENT_KEY_PRESS`, as a truth value: bit 24 of the event. */
  predicate IsKeyPress(e: Event)
    ensures IsKeyPress(e) <==> Bit(e as nat, 24) == 1
  {
    Pow2Values();
    AndPow2(e as nat, 24);
    BitAnd(e, KEY_PRESS) != 0
  }

  // ---------------------------------------------------------------------------
  // The queue, as a sequence of pending events

  /** No pending event is `CACA_EVENT_NONE`. */
  predicate NoNone(q: seq<Event>)
  {
    forall i :: 0 <= i < |q| ==> q[i] != NONE
  }

  /** `_push_event` (caca/event.c:781-787) on the pending events q. */
  function Push(q: seq<Event>, e: Event): (r: seq<Event>)
    requires |q| <= EVENTBUF_LEN
    ensures |q| <= |r| <= EVENTBUF_LEN && |r| <= |q| + 1
  {
    if e == NONE || |q| == EVENTBUF_LEN then q else q + [e]
  }

  /** A push appends the event or leaves the queue as it was, so it never
      brings in `CACA_EVENT_NONE`. */
  lemma PushAppends(q: seq<Event>, e: Event)
    requires |q| <= EVENTBUF_LEN
    ensures Push(q, e) == q || (e != NONE && Push(q, e) == q + [e])
    ensures NoNone(q) ==> NoNone(Push(q, e))
  {
  }

  /** `_pop_event` (caca/event.c:789-803): the oldest pending event and the
      rest, or `CACA_EVENT_NONE` and no change when nothing is pending. */
  function Pop(q: seq<Event>): (r: (Event, seq<Event>))
    ensures |q| == 0 ==> r == (NONE, q)
    ensures |q| > 0 ==> [r.0] + r.1 == q
  {
    if |q| == 0 then (NONE, q) else (q[0], q[1..])
  }

  /** Pushing each of es in turn. */
  function PushAll(q: seq<Event>, es: seq<Event>): seq<Event>
    requires |q| <= EVENTBUF_LEN
    decreases |es|
  {
    if |es| == 0 then q else PushAll(Push(q, es[0]), es[1..])
  }

  /** Popping until nothing is pending: the events in the order returned. */
  function Drain(q: seq<Event>): seq<Event>
    decreases |q|
  {
    if |q| == 0 then [] else var (e, rest) := Pop(q); [e] + Drain(rest)
  }

  lemma {:induction false} PushAllAppends(q: seq<Event>, es: seq<Event>)
    requires |q| + |es| <= EVENTBUF_LEN && NoNone(es)
    ensures PushAll(q, es) == q + es
    decreases |es|
  {
    if |es| > 0 {
      PushAllAppends(q + [es[0]], es[1..]);
      assert q + [es[0]] + es[1..] == q + es;
    }
  }

  lemma {:induction false} DrainIsOrder(q: seq<Event>)
    ensures Drain(q) == q
    decreases |q|
  {
    if |q| > 0 {
      DrainIsOrder(q[1..]);
    }
  }

  /** The queue is first-in first-out: events pushed while there is room come
      out of it in the order they went in, after those already pending. */
  lemma Fifo(q: seq<Event>, es: seq<Event>)
    requires |q| + |es| <= EVENTBUF_LEN && NoNone(es)
    ensures Drain(PushAll(q, es)) == q + es
  {
    PushAllAppends(q, es);
    DrainIsOrder(q + es);
  }

  /** A full queue drops what is pushed; `CACA_EVENT_NONE` is never queued. */
  lemma PushDrops(q: seq<Event>, e: Event)
    requires |q| <= EVENTBUF_LEN
    ensures |q| == EVENTBUF_LEN ==> Push(q, e) == q
    ensures Push(q, NONE) == q
  {
  }

  // ---------------------------------------------------------------------------
  // `_get_next_event`, on values

  /** Everything `_get_next_event` reads or changes: the pending events, what
      the driver and the key timer will return, and the autorepeat state. */
  datatype World = World(queue: seq<Event>, source: seq<Event>, clock: seq<uint32>,
                         lastKey: Event, lastKeyTicks: uint32, autorepeatTicks: uint32)

  /** Every event still to come, pending ones first. */
  function Stream(w: World): seq<Event>
  {
    w.queue + w.source
  }

  /** The first event of s, or `CACA_EVENT_NONE` if there is none. */
  function Head(s: seq<Event>): Event
  {
    if |s| == 0 then NONE else s[0]
  }

  /** The invariant of the event state: the queue is within capacity and holds
      no `CACA_EVENT_NONE`, and the held key fits in the low 24 bits. */
  predicate Sane(w: World)
  {
    |w.queue| <= EVENTBUF_LEN && NoNone(w.queue) && w.lastKey <= KEY_BITS
  }

  /** `_lowlevel_event` (caca/event.c:230-238, 777): a pending event first,
      otherwise whatever the driver returns. */
  function Lowlevel(w: World): (r: (Event, World))
    ensures r.1 == w.(queue := r.1.queue, source := r.1.source)
    ensures |r.1.queue| <= |w.queue|
  {
    var (e, q) := Pop(w.queue);
    if e != NONE then (e, w.(queue := q))
    else if |w.source| > 0 then (w.source[0], w.(queue := q, source := w.source[1..]))
    else (NONE, w.(queue := q))
  }

  /** `_lowlevel_event` never makes what is still to come longer, and it
      shortens it whenever it returns an event. */
  lemma LowlevelShrinks(w: World)
    ensures |Stream(Lowlevel(w).1)| <= |Stream(w)|
    ensures Lowlevel(w).0 != NONE ==> |Stream(Lowlevel(w).1)| < |Stream(w)|
  {
  }

  /** On a queue without `CACA_EVENT_NONE`, `_lowlevel_event` takes the first
      event still to come, pending ones first. */
  lemma LowlevelTakesFirst(w: World)
    requires NoNone(w.queue)
    ensures var r := Lowlevel(w);
            NoNone(r.1.queue) && r.0 == Head(Stream(w)) &&
            Stream(r.1) == if |Stream(w)| == 0 then [] else Stream(w)[1..]
  {
  }

  /** `_caca_getticks(&key_timer)`: the microseconds since the last reading. */
  function Tick(clock: seq<uint32>): (r: (uint32, seq<uint32>))
    ensures |clock| > 0 ==> [r.0] + r.1 == clock
    ensures |clock| == 0 ==> r == (0, clock)
  {
    if |clock| == 0 then (0, clock) else (clock[0], clock[1..])
  }

  /** The key timer is read and the ticks added to both counters, modulo 2^32
      (caca/event.c:182-185). */
  function Ticked(w: World): (v: World)
    ensures v == w.(clock := v.clock, lastKeyTicks := v.lastKeyTicks, autorepeatTicks := v.autorepeatTicks)
  {
    var (ticks, clock) := Tick(w.clock);
    w.(clock := clock, lastKeyTicks := Add(w.lastKeyTicks, ticks),
       autorepeatTicks := Add(w.autorepeatTicks, ticks))
  }

  /** A key is held and the repeat counter is past the trigger delay
      (caca/event.c:187-191). */
  predicate Fires(w: World)
  {
    w.lastKey != 0 && w.autorepeatTicks > AUTOREPEAT_TRIGGER &&
    w.autorepeatTicks > AUTOREPEAT_THRESHOLD && w.autorepeatTicks > AUTOREPEAT_RATE
  }

  /** The repeat fires: the fetched event is pushed back and a press of the
      held key returned, one period later (caca/event.c:192-196). */
  function Repeat(ev: Event, w: World): (r: (Event, World))
    requires |w.queue| <= EVENTBUF_LEN
    ensures KEY_PRESS <= r.0 && r.1.lastKey == w.lastKey && r.1.lastKeyTicks == w.lastKeyTicks
    ensures |r.1.queue| <= EVENTBUF_LEN && r.1.source == w.source
    ensures r.1.queue == w.queue || r.1.queue == w.queue + [ev]
  {
    PushAppends(w.queue, ev);
    (BitOr(KEY_PRESS, w.lastKey),
     w.(queue := Push(w.queue, ev), autorepeatTicks := Sub(w.autorepeatTicks, AUTOREPEAT_RATE)))
  }

  /** What happens to an event that is not a press of the held key
      (caca/event.c:206-226): a release of the held key when it has expired or
      another key was pressed, with the event pushed back; otherwise the event
      itself, which starts the autorepeat if it is a key press. */
  function Settle(ev: Event, w: World): (r: (Event, World))
    requires |w.queue| <= EVENTBUF_LEN
    ensures r.0 == ev || r.0 == BitOr(KEY_RELEASE, w.lastKey)
    ensures r.0 != ev ==> r.1.queue == Push(w.queue, ev) && r.1.lastKey == 0
    ensures r.1.lastKey == 0 || r.1.lastKey == w.lastKey || r.1.lastKey == BitAnd(ev, KEY_BITS)
    ensures r.0 == NONE ==> r.1 == w
  {
    if w.lastKey != 0 && (w.lastKeyTicks > AUTOREPEAT_THRESHOLD || IsKeyPress(ev)) then
      (BitOr(KEY_RELEASE, w.lastKey), w.(queue := Push(w.queue, ev), lastKey := 0))
    else if IsKeyPress(ev) then
      (ev, w.(lastKey := BitAnd(ev, KEY_BITS), lastKeyTicks := 0, autorepeatTicks := 0))
    else
      (ev, w)
  }

  /** `_get_next_event` (caca/event.c:164-228); `autorepeat` says whether the
      driver is S-Lang or ncurses, the two that emulate key releases and key
      repeat.  A press of the key already held is swallowed and the next event
      fetched instead, as the C function does by calling itself. */
  function NextEvent(w: World, autorepeat: bool): (r: (Event, World))
    requires |w.queue| <= EVENTBUF_LEN
    ensures |r.1.queue| <= EVENTBUF_LEN
    decreases |Stream(w)|
  {
    LowlevelShrinks(w);
    var (ev, w1) := Lowlevel(w);
    if !autorepeat then (ev, w1)
    else
      var w2 := Ticked(w1);
      if Fires(w2) then Repeat(ev, w2)
      else if ev == BitOr(KEY_PRESS, w2.lastKey) then NextEvent(w2.(lastKeyTicks := 0), autorepeat)
      else Settle(ev, w2)
  }

  /** `_get_next_event` keeps the event state sane. */
  lemma {:induction false} NextEventSane(w: World, autorepeat: bool)
    requires Sane(w)
    ensures Sane(NextEvent(w, autorepeat).1)
    decreases |Stream(w)|
  {
    LowlevelShrinks(w);
    LowlevelTakesFirst(w);
    var (ev, w1) := Lowlevel(w);
    if autorepeat {
      var w2 := Ticked(w1);
      PushAppends(w2.queue, ev);
      if !Fires(w2) && ev == BitOr(KEY_PRESS, w2.lastKey) {
        NextEventSane(w2.(lastKeyTicks := 0), autorepeat);
      }
    }
  }

  /** Without autorepeat, `_get_next_event` is `_lowlevel_event`. */
  lemma PassThrough(w: World)
    requires |w.queue| <= EVENTBUF_LEN
    ensures NextEvent(w, false) == Lowlevel(w)
  {
  }

  /** While a key is held and the repeat does not fire, an event that is not
      a press of that key is pushed back and a release of the held key is
      returned instead, when the key has expired or the event is any key
      press; the held key is then forgotten (caca/event.c:206-216). */
  lemma HeldKeyReleased(w: World)
    requires |w.queue| <= EVENTBUF_LEN
    requires var (ev, w1) := Lowlevel(w); var w2 := Ticked(w1);
             w.lastKey != 0 && w2.autorepeatTicks <= AUTOREPEAT_TRIGGER &&
             ev != BitOr(KEY_PRESS, w.lastKey) &&
             (w2.lastKeyTicks > AUTOREPEAT_THRESHOLD || IsKeyPress(ev))
    ensures var (ev, w1) := Lowlevel(w); var r := NextEvent(w, true);
            r.0 == BitOr(KEY_RELEASE, w.lastKey) && r.1.lastKey == 0 &&
            r.1.queue == Push(w1.queue, ev)
  {
  }

  /** A key press with no key held starts the autorepeat: the key is
      remembered without its type bits and both tick counters restart
      (caca/event.c:218-224). */
  lemma NewKeyHeld(w: World)
    requires |w.queue| <= EVENTBUF_LEN
    requires var ev := Lowlevel(w).0; w.lastKey == 0 && IsKeyPress(ev) && ev != KEY_PRESS
    ensures var ev := Lowlevel(w).0; var r := NextEvent(w, true);
            r.0 == ev && r.1.lastKey == BitAnd(ev, KEY_BITS) && r.1.lastKeyTicks == 0 && r.1.autorepeatTicks == 0
  {
  }

  /** While a key is held for longer than the trigger delay, a press of it is
      returned, the fetched event goes back to the end of the queue and the
      repeat counter drops by one period (caca/event.c:187-196). */
  lemma RepeatFires(w: World)
    requires |w.queue| <= EVENTBUF_LEN
    requires var w2 := Ticked(Lowlevel(w).1); w.lastKey != 0 && w2.autorepeatTicks > AUTOREPEAT_TRIGGER
    ensures var (ev, w1) := Lowlevel(w); var w2 := Ticked(w1); var r := NextEvent(w, true);
            r.0 == BitOr(KEY_PRESS, w.lastKey) && r.1.lastKey == w.lastKey &&
            r.1.queue == Push(w1.queue, ev) && r.1.autorepeatTicks == Sub(w2.autorepeatTicks, AUTOREPEAT_RATE)
  {
  }

  /** Pushing the fetched event back puts it behind the events still queued,
      so a repeat that fires while two events are pending swaps them. */
  lemma RepeatReorders()
    ensures var w := World([0x0100_0001, 0x0100_0002], [], [], 0x71, 0, 400000);
            NextEvent(w, true) == (0x0100_0071, w.(queue := [0x0100_0002, 0x0100_0001], autorepeatTicks := 300000))
  {
    var w := World([0x0100_0001, 0x0100_0002], [], [], 0x71, 0, 400000);
    assert Lowlevel(w) == (0x0100_0001, w.(queue := [0x0100_0002]));
    assert Ticked(w.(queue := [0x0100_0002])) == w.(queue := [0x0100_0002]);
    assert Fires(w.(queue := [0x0100_0002]));
    assert Push([0x0100_0002], 0x0100_0001) == [0x0100_0002, 0x0100_0001];
    assert Sub(400000, AUTOREPEAT_RATE) == 300000;
    Pow2Values();
    OrAbove(24, 0x71);
    assert BitOr(KEY_PRESS, 0x71) == 0x0100_0071;
  }

  // ---------------------------------------------------------------------------
  // `caca_get_event`

  /** The lexicographic measure that every non-empty answer of
      `_get_next_event` lowers: events still to come, then timer readings,
      then whether a key is held, then the repeat counter. */
  predicate Lower(v: World, w: World)
  {
    |Stream(v)| < |Stream(w)| ||
    (|Stream(v)| == |Stream(w)| &&
     (|v.clock| < |w.clock| ||
      (|v.clock| == |w.clock| &&
       ((v.lastKey == 0 && w.lastKey != 0) ||
        ((v.lastKey == 0) == (w.lastKey == 0) && v.autorepeatTicks < w.autorepeatTicks)))))
  }

  /** A repeat lowers the measure even when it consumes no event: by a timer
      reading, or else by one period of the repeat counter. */
  lemma RepeatLowers(w: World)
    requires |w.queue| <= EVENTBUF_LEN && Fires(Ticked(Lowlevel(w).1))
    ensures var (ev, w1) := Lowlevel(w); var r := Repeat(ev, Ticked(w1));
            |Stream(r.1)| <= |Stream(w)| && r.0 != NONE && Lower(r.1, w)
  {
    LowlevelShrinks(w);
    var (ev, w1) := Lowlevel(w);
    var w2 := Ticked(w1);
    var r := Repeat(ev, w2);
    assert Stream(w2) == Stream(w1);
    assert |Stream(r.1)| <= |Stream(w)|;
    if |Stream(r.1)| == |Stream(w)| && |w.clock| == 0 {
      assert w2.autorepeatTicks == w.autorepeatTicks;
      assert r.1.autorepeatTicks < w.autorepeatTicks;
    }
  }

  /** Settling an event lowers the measure whenever it returns one: a release
      forgets the held key, anything else consumed the event it returns. */
  lemma SettleLowers(w: World)
    requires |w.queue| <= EVENTBUF_LEN
    ensures var (ev, w1) := Lowlevel(w); var r := Settle(ev, Ticked(w1));
            |Stream(r.1)| <= |Stream(w)| && (r.0 != NONE ==> Lower(r.1, w))
  {
    LowlevelShrinks(w);
    var (ev, w1) := Lowlevel(w);
    var w2 := Ticked(w1);
    var r := Settle(ev, w2);
    assert Stream(w2) == Stream(w1);
    if w2.lastKey != 0 && (w2.lastKeyTicks > AUTOREPEAT_THRESHOLD || IsKeyPress(ev)) {
      assert |Stream(r.1)| <= |Stream(w)|;
      assert r.1.lastKey == 0 && w.lastKey != 0;
    } else if IsKeyPress(ev) {
      assert ev != NONE;
    }
  }

  /** `_get_next_event` never lengthens what is still to come, and whenever it
      returns an event it lowers the measure: the loop of `caca_get_event`
      ends, even while a held key keeps repeating. */
  lemma {:induction false} Progress(w: World, autorepeat: bool)
    requires |w.queue| <= EVENTBUF_LEN
    ensures |Stream(NextEvent(w, autorepeat).1)| <= |Stream(w)|
    ensures NextEvent(w, autorepeat).0 != NONE ==> Lower(NextEvent(w, autorepeat).1, w)
    decreases |Stream(w)|
  {
    LowlevelShrinks(w);
    var (ev, w1) := Lowlevel(w);
    if autorepeat {
      var w2 := Ticked(w1);
      if !Fires(w2) && ev == BitOr(KEY_PRESS, w2.lastKey) {
        Progress(w2.(lastKeyTicks := 0), autorepeat);
      } else if Fires(w2) {
        RepeatLowers(w);
      } else {
        SettleLowers(w);
      }
    }
  }

  /** The measure falls only because `clock` is finite.  With nothing left
      to fetch, a key held past the trigger delay and a timer reading of at
      least one period, the repeat fires again: only the clock and the tick
      counters change, and the repeat counter does not go down, so the next
      turn fires as well.  When the mask leaves out the repeated press, the
      loop of `caca_get_event` goes on from that state; a key timer that
      keeps answering so never lets it return (caca/event.c:91-97, 182-196). */
  lemma RepeatKeepsFiring(w: World, mask: Event)
    requires |w.queue| == 0 && |w.source| == 0 && |w.clock| > 0
    requires w.lastKey != 0 && w.autorepeatTicks > AUTOREPEAT_TRIGGER
    requires AUTOREPEAT_RATE <= w.clock[0] && w.autorepeatTicks as int + w.clock[0] as int < 0x1_0000_0000
    requires mask != 0 && BitAnd(BitOr(KEY_PRESS, w.lastKey), mask) == 0
    ensures var r := NextEvent(w, true);
            r.0 == BitOr(KEY_PRESS, w.lastKey) &&
            r.1 == w.(clock := w.clock[1..], lastKeyTicks := r.1.lastKeyTicks, autorepeatTicks := r.1.autorepeatTicks) &&
            w.autorepeatTicks <= r.1.autorepeatTicks &&
            Filter(w, mask, true) == Filter(r.1, mask, true)
  {
  }

  /** The loop of `caca_get_event` (caca/event.c:91-97): events are fetched
      until one is `CACA_EVENT_NONE` or shares a bit with the mask. */
  function Filter(w: World, mask: Event, autorepeat: bool): (r: (Event, World))
    requires |w.queue| <= EVENTBUF_LEN && mask != 0
    ensures r.0 == NONE || BitAnd(r.0, mask) != 0
    ensures |r.1.queue| <= EVENTBUF_LEN
    decreases |Stream(w)|, |w.clock|, if w.lastKey != 0 then 1 else 0, w.autorepeatTicks as int
  {
    var (e, v) := NextEvent(w, autorepeat);
    Progress(w, autorepeat);
    if e == NONE || BitAnd(e, mask) != 0 then (e, v) else Filter(v, mask, autorepeat)
  }

  /** `caca_get_event` (caca/event.c:86-98): a zero mask returns
      `CACA_EVENT_NONE` at once, without fetching anything. */
  function MaskedEvent(w: World, mask: Event, autorepeat: bool): (r: (Event, World))
    requires |w.queue| <= EVENTBUF_LEN
    ensures mask == 0 ==> r == (NONE, w)
    ensures r.0 == NONE || BitAnd(r.0, mask) != 0
  {
    if mask == 0 then (NONE, w) else Filter(w, mask, autorepeat)
  }

  /** Where the first event of s that is `CACA_EVENT_NONE` or matches the
      mask is, or |s| if there is none. */
  function FirstMatch(s: seq<Event>, mask: Event): (k: nat)
    ensures k <= |s|
    ensures forall i :: 0 <= i < k ==> s[i] != NONE && BitAnd(s[i], mask) == 0
    ensures k < |s| ==> s[k] == NONE || BitAnd(s[k], mask) != 0
  {
    if |s| == 0 then 0
    else if s[0] == NONE || BitAnd(s[0], mask) != 0 then 0
    else 1 + FirstMatch(s[1..], mask)
  }

  /** Without autorepeat, the mask loop fetches the first event still to
      come, and goes on from what is left when it neither is
      `CACA_EVENT_NONE` nor matches. */
  lemma FilterStep(w: World, mask: Event)
    requires |w.queue| <= EVENTBUF_LEN && NoNone(w.queue) && mask != 0
    ensures var s := Stream(w); var (e, v) := Lowlevel(w);
            e == Head(s) && NoNone(v.queue) && |v.queue| <= EVENTBUF_LEN &&
            Stream(v) == (if |s| == 0 then [] else s[1..]) &&
            Filter(w, mask, false) ==
              if e == NONE || BitAnd(e, mask) != 0 then (e, v) else Filter(v, mask, false)
  {
    LowlevelTakesFirst(w);
    PassThrough(w);
  }

  /** Without autorepeat, `caca_get_event` returns the first event still to
      come that is `CACA_EVENT_NONE` or matches the mask, having consumed and
      dropped the ones before it and kept the ones after it. */
  lemma {:induction false} GetEventFirstMatch(w: World, mask: Event)
    requires |w.queue| <= EVENTBUF_LEN && NoNone(w.queue) && mask != 0
    ensures var k := FirstMatch(Stream(w), mask); var r := MaskedEvent(w, mask, false);
            r.0 == (if k < |Stream(w)| then Stream(w)[k] else NONE) &&
            Stream(r.1) == (if k < |Stream(w)| then Stream(w)[k + 1..] else [])
    decreases |Stream(w)|
  {
    var s := Stream(w);
    FilterStep(w, mask);
    var v := Lowlevel(w).1;
    if |s| > 0 && !(s[0] == NONE || BitAnd(s[0], mask) != 0) {
      GetEventFirstMatch(v, mask);
      var k := FirstMatch(s[1..], mask);
      assert FirstMatch(s, mask) == k + 1;
      if k < |s[1..]| {
        assert s[1..][k] == s[k + 1] && s[1..][k + 1..] == s[k + 2..];
      }
    }
  }

  // ---------------------------------------------------------------------------
  // Mouse coordinates

  /** `caca_get_mouse_x/y` (caca/event.c:135-158): a coordinate at or beyond
      the canvas size becomes size - 1, in unsigned arithmetic. */
  function Clamp(v: uint32, size: uint32): (r: uint32)
    ensures 0 < size ==> r < size
    ensures r == v || r == Sub(size, 1)
    ensures v < size ==> r == v
  {
    if v >= size then Sub(size, 1) else v
  }

  /** A coordinate once clamped stays put, and on a canvas of size 0 the
      clamp wraps to the largest unsigned value. */
  lemma ClampIdempotent(v: uint32, size: uint32)
    ensures Clamp(Clamp(v, size), size) == Clamp(v, size)
    ensures size == 0 ==> Clamp(v, size) == 0xffff_ffff
  {
  }

  // ---------------------------------------------------------------------------
  // The event state of a `caca_t`

  class Caca {
    /** `events.buf` and `events.queue`. */
    const buf: array<Event>
    var queue: int
    /** `events.last_key`, `events.last_key_ticks`, `events.autorepeat_ticks`. */
    var lastKey: Event
    var lastKeyTicks: uint32
    var autorepeatTicks: uint32
    var mouseX: uint32
    var mouseY: uint32
    /** The canvas size, `qq->width` and `qq->height`. */
    var width: uint32
    var height: uint32
    /** The driver is S-Lang or ncurses; the driver of a display never changes. */
    const autorepeat: bool
    /** What the driver and the key timer will return. */
    var source: seq<Event>
    var clock: seq<uint32>

    /** A display with nothing pending and no key held. */
    constructor (autorepeat: bool, source: seq<Event>, clock: seq<uint32>, width: uint32, height: uint32)
      ensures Valid() && fresh(buf) && State() == World([], source, clock, 0, 0, 0)
      ensures this.autorepeat == autorepeat && this.width == width && this.height == height
    {
      buf := new Event[EVENTBUF_LEN];
      queue := 0;
      lastKey, lastKeyTicks, autorepeatTicks := 0, 0, 0;
      mouseX, mouseY := 0, 0;
      this.width, this.height := width, height;
      this.autorepeat := autorepeat;
      this.source, this.clock := source, clock;
    }

    /** The array has the queue's capacity, and the event state is sane. */
    ghost predicate Valid()
      reads this, buf
    {
      buf.Length == EVENTBUF_LEN && 0 <= queue <= EVENTBUF_LEN &&
      NoNone(buf[..queue]) && lastKey <= KEY_BITS
    }

    /** The pending events, oldest first. */
    ghost function Queue(): seq<Event>
      reads this, buf
      requires Valid()
    {
      buf[..queue]
    }

    ghost function State(): World
      reads this, buf
      requires Valid()
    {
      World(Queue(), source, clock, lastKey, lastKeyTicks, autorepeatTicks)
    }

    /** `_push_event` (caca/event.c:781-787): `CACA_EVENT_NONE` and pushes to a
        full queue are ignored; otherwise the event goes in at index `queue`
        and the entries before it are left as they were. */
    method PushEvent(e: Event)
      requires Valid()
      modifies this`queue, buf
      ensures Valid() && Queue() == Push(old(Queue()), e)
    {
      if e == NONE || queue == EVENTBUF_LEN {
        return;
      }
      buf[queue] := e;
      queue := queue + 1;
    }

    /** `_pop_event` (caca/event.c:789-803): the oldest event is returned and
        the others move down one slot, in order. */
    method PopEvent() returns (e: Event)
      requires Valid()
      modifies this`queue, buf
      ensures Valid() && (e, Queue()) == Pop(old(Queue()))
    {
      if queue == 0 {
        return NONE;
      }
      e := buf[0];
      ghost var rest := buf[1..queue];
      var i := 1;
      while i < queue
        invariant queue == old(queue) && 1 <= i <= queue
        invariant buf[..i - 1] == old(buf[1..i])
        invariant buf[i..] == old(buf[i..])
      {
        buf[i - 1] := buf[i];
        i := i + 1;
      }
      queue := queue - 1;
      assert buf[..queue] == rest;
    }

    /** `_lowlevel_event`: a pending event, else the driver's next answer. */
    method LowlevelEvent() returns (e: Event)
      requires Valid()
      modifies this`queue, this`source, buf
      ensures Valid() && (e, State()) == Lowlevel(old(State()))
    {
      e := PopEvent();
      if e != NONE {
        return;
      }
      if |source| > 0 {
        e := source[0];
        source := source[1..];
      }
    }

    /** A reading of the key timer, added to both counters. */
    method ReadTimer()
      requires Valid()
      modifies this`clock, this`lastKeyTicks, this`autorepeatTicks
      ensures Valid() && State() == Ticked(old(State()))
    {
      var ticks: uint32 := 0;
      if |clock| > 0 {
        ticks := clock[0];
        clock := clock[1..];
      }
      lastKeyTicks := Add(lastKeyTicks, ticks);
      autorepeatTicks := Add(autorepeatTicks, ticks);
    }

    /** The repeat fires (caca/event.c:192-196). */
    method RepeatKey(ev: Event) returns (e: Event)
      requires Valid()
      modifies this`queue, this`autorepeatTicks, buf
      ensures Valid() && (e, State()) == Repeat(ev, old(State()))
    {
      PushEvent(ev);
      autorepeatTicks := Sub(autorepeatTicks, AUTOREPEAT_RATE);
      e := BitOr(KEY_PRESS, lastKey);
    }

    /** An event that is not a press of the held key (caca/event.c:206-226). */
    method SettleEvent(ev: Event) returns (e: Event)
      requires Valid()
      modifies this`queue, this`lastKey, this`lastKeyTicks, this`autorepeatTicks, buf
      ensures Valid() && (e, State()) == Settle(ev, old(State()))
    {
      e := ev;
      if lastKey != 0 && (lastKeyTicks > AUTOREPEAT_THRESHOLD || IsKeyPress(e)) {
        PushEvent(e);
        e := BitOr(KEY_RELEASE, lastKey);
        lastKey := 0;
        return;
      }
      if IsKeyPress(e) {
        lastKeyTicks := 0;
        autorepeatTicks := 0;
        lastKey := BitAnd(e, KEY_BITS);
      }
    }

    /** `_get_next_event` (caca/event.c:164-228). */
    method GetNextEvent() returns (e: Event)
      requires Valid()
      modifies this`queue, this`source, this`clock, this`lastKey, this`lastKeyTicks, this`autorepeatTicks, buf
      ensures Valid() && (e, State()) == NextEvent(old(State()), autorepeat)
      decreases |Stream(State())|
    {
      ghost var w := State();
      LowlevelShrinks(w);
      e := LowlevelEvent();
      if !autorepeat {
        return;
      }
      ReadTimer();
      if lastKey != 0 && autorepeatTicks > AUTOREPEAT_TRIGGER &&
         autorepeatTicks > AUTOREPEAT_THRESHOLD && autorepeatTicks > AUTOREPEAT_RATE {
        e := RepeatKey(e);
        return;
      }
      if e == BitOr(KEY_PRESS, lastKey) {
        lastKeyTicks := 0;
        e := GetNextEvent();
        return;
      }
      e := SettleEvent(e);
    }

    /** `caca_get_event` (caca/event.c:86-98). */
    method GetEvent(mask: Event) returns (e: Event)
      requires Valid()
      modifies this`queue, this`source, this`clock, this`lastKey, this`lastKeyTicks, this`autorepeatTicks, buf
      ensures Valid() && (e, State()) == MaskedEvent(old(State()), mask, autorepeat)
      ensures mask != 0 && !autorepeat ==>
                var s := Stream(old(State())); var k := FirstMatch(s, mask);
                e == (if k < |s| then s[k] else NONE) && Stream(State()) == (if k < |s| then s[k + 1..] else [])
    {
      if mask == 0 {
        return NONE;
      }
      if !autorepeat {
        GetEventFirstMatch(State(), mask);
      }
      while true
        invariant Valid() && Filter(State(), mask, autorepeat) == MaskedEvent(old(State()), mask, autorepeat)
        decreases |Stream(State())|, |clock|, if lastKey != 0 then 1 else 0, autorepeatTicks as int
      {
        ghost var before := State();
        e := GetNextEvent();
        Progress(before, autorepeat);
        if e == NONE || BitAnd(e, mask) != 0 {
          return;
        }
      }
    }

    /** `caca_get_mouse_x` (caca/event.c:135-141): the clamped coordinate is
        also written back. */
    method GetMouseX() returns (r: uint32)
      modifies this`mouseX
      ensures mouseX == Clamp(old(mouseX), width) && r == mouseX
    {
      if mouseX >= width {
        mouseX := Sub(width, 1);
      }
      r := mouseX;
    }

    /** `caca_get_mouse_y` (caca/event.c:152-158). */
    method GetMouseY() returns (r: uint32)
      modifies this`mouseY
      ensures mouseY == Clamp(old(mouseY), height) && r == mouseY
    {
      if mouseY >= height {
        mouseY := Sub(height, 1);
      }
      r := mouseY;
    }
  }
}
