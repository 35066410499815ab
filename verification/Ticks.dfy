/** The 32-bit tick count (`TickType_t` with `configUSE_16_BIT_TICKS` 0) and the
    absolute time behind it.

    Code only ever sees a `Tick`.  An absolute time is an unbounded integer that
    never wraps; `Wrapped` is what the code sees of it and `Epoch` counts the
    overflows it hides. */
module Ticks {

  const WRAP: int := 0x1_0000_0000

  type Tick = x: int | 0 <= x < 0x1_0000_0000

  /** `portMAX_DELAY` */
  const MAX_DELAY: Tick := 0xffff_ffff

  function Wrapped(t: int): Tick {
    t % 0x1_0000_0000
  }

  function Epoch(t: int): int {
    t / 0x1_0000_0000
  }

  /** Unsigned 32-bit addition. */
  function Add(a: Tick, b: Tick): Tick {
    if a + b < 0x1_0000_0000 then a + b else a + b - 0x1_0000_0000
  }

  /** Unsigned 32-bit subtraction. */
  function Sub(a: Tick, b: Tick): Tick {
    if a >= b then a - b else a - b + 0x1_0000_0000
  }

  /** Within one epoch the wrapped order is the absolute order. */
  lemma SameEpochOrder(a: int, b: int)
    requires Epoch(a) == Epoch(b)
    ensures Wrapped(a) <= Wrapped(b) <==> a <= b
  {
  }

  /** A time less than one wrap after `a` is in `a`'s epoch or the next, and shows it
      by whether its tick is below `a`'s. */
  lemma Later(a: int, b: int)
    requires a <= b < a + WRAP
    ensures Epoch(b) == if Wrapped(b) < Wrapped(a) then Epoch(a) + 1 else Epoch(a)
    ensures b - a == Sub(Wrapped(b), Wrapped(a))
    ensures Wrapped(b) == Add(Wrapped(a), b - a)
  {
  }
}
