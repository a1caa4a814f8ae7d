/** The latch a stop waits on: how many requests are inside, and whether the
    last of them left after the stop began (adapters/enforce/stats.go and, the
    same type, adapters/mcp/adapter.go). */
module Flights {

  /** `made` is an idle channel that exists, `closed` one that was closed. */
  datatype Latch = Latch(n: int, made: bool, closed: bool)

  const NewLatch := Latch(0, false, false)

  /** Idle is closed exactly when a stop began and nobody is inside. */
  predicate LatchInv(l: Latch) {
    && 0 <= l.n
    && (l.closed <==> l.made && l.n == 0)
  }

  function Entered(l: Latch): Latch {
    if l.made then l else l.(n := l.n + 1)
  }

  function Left(l: Latch): Latch {
    Latch(l.n - 1, l.made, l.closed || (l.made && l.n == 1))
  }

  function Stopping(l: Latch): Latch {
    if l.made then l else Latch(l.n, true, l.n == 0)
  }

  class FlightCount {
    var n: int
    var made: bool
    var closed: bool

    ghost function View(): Latch
      reads this
    {
      Latch(n, made, closed)
    }

    ghost predicate Valid()
      reads this
    {
      LatchInv(View())
    }

    constructor ()
      ensures Valid() && View() == NewLatch
    {
      n, made, closed := 0, false, false;
    }

    method Enter() returns (ok: bool)
      requires Valid()
      modifies this`n
      ensures Valid()
      ensures ok == !old(made) && View() == Entered(old(View()))
    {
      if made {
        return false;
      }
      n := n + 1;
      return true;
    }

    method Leave()
      requires Valid() && n > 0
      modifies this`n, this`closed
      ensures Valid() && View() == Left(old(View()))
    {
      n := n - 1;
      if n == 0 && made {
        CloseIdle();
      }
    }

    method Shut()
      requires Valid()
      modifies this`made, this`closed
      ensures Valid() && made && View() == Stopping(old(View()))
    {
      if !made {
        made := true;
        if n == 0 {
          CloseIdle();
        }
      }
    }

    /** Closing a closed channel panics, so it may be done once only. */
    method CloseIdle()
      requires made && !closed
      modifies this`closed
      ensures closed
    {
      closed := true;
    }
  }
}
