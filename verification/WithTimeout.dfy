/** A promise raced against a timer: the first callback settles it, the rest are ignored. */
module Timeouts {
  import opened Wrappers

  datatype Callback = OnValue | OnError(error: string) | OnTimer
  datatype Settlement = Resolved | Failed(reason: string)

  const TIMED_OUT := "publisher confirm timed out"

  function SettledBy(c: Callback): Settlement {
    match c
    case OnValue => Resolved
    case OnError(error) => Failed(error)
    case OnTimer => Failed(TIMED_OUT)
  }

  /** What one more callback makes of a race: only the first settles it. */
  function Raced(settled: Option<Settlement>, c: Callback): Option<Settlement> {
    if settled.Some? then settled else Some(SettledBy(c))
  }

  class WithTimeout {
    var settled: Option<Settlement>
    var armed: bool
    ghost var seen: seq<Callback>

    ghost predicate Valid()
      reads this
    {
      && settled == (if seen == [] then None else Some(SettledBy(seen[0])))
      && (armed <==> seen == [])
    }

    constructor ()
      ensures Valid() && armed && seen == [] && settled == None
    {
      settled := None;
      armed := true;
      seen := [];
    }

    /** A settled promise ignores every later settlement. */
    method Settle(s: Settlement)
      modifies `settled
      ensures settled == if old(settled).Some? then old(settled) else Some(s)
    {
      if settled.None? {
        settled := Some(s);
      }
    }

    /** The promise's own callback clears the timer first. */
    method PromiseSettles(c: Callback)
      requires Valid() && !c.OnTimer?
      modifies this
      ensures Valid() && !armed && seen == old(seen) + [c]
      ensures settled == Raced(old(settled), c)
    {
      armed := false;
      Settle(SettledBy(c));
      seen := seen + [c];
    }

    /** The timer calls back only while it is armed, so never after the promise has settled. */
    method TimerFires()
      requires Valid()
      modifies this
      ensures Valid() && !armed
      ensures seen == old(seen) + (if old(armed) then [OnTimer] else [])
      ensures settled == Raced(old(settled), OnTimer)
    {
      if armed {
        armed := false;
        Settle(SettledBy(OnTimer));
        seen := seen + [OnTimer];
      }
    }
  }
}
