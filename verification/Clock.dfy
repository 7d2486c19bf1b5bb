/** The hybrid logical clock: version order, local ticks and remote observations. */
module Clock {
  import opened Bytes

  /** A record version (`HlcTimestamp`). */
  datatype Stamp = Stamp(wall: u64, counter: u32, author: Key)

  /** The value of a stored clock (`ClockState`). */
  datatype Time = Time(wall: u64, counter: u32)

  const ORIGIN := Time(0, 0)

  function TimeOf(s: Stamp): Time { Time(s.wall, s.counter) }

  predicate Before(a: Time, b: Time) {
    a.wall < b.wall || (a.wall == b.wall && a.counter < b.counter)
  }

  predicate AtMost(a: Time, b: Time) { a == b || Before(a, b) }

  /** `Ord for HlcTimestamp`: wall clock, then counter, then author. */
  predicate Older(a: Stamp, b: Stamp) {
    Before(TimeOf(a), TimeOf(b)) || (TimeOf(a) == TimeOf(b) && Less(a.author, b.author))
  }

  predicate NotNewer(a: Stamp, b: Stamp) { a == b || Older(a, b) }

  lemma OlderTrichotomy(a: Stamp, b: Stamp)
    ensures Older(a, b) || Older(b, a) <==> a != b
    ensures !(Older(a, b) && Older(b, a))
  {
    LessTrichotomy(a.author, b.author);
  }

  lemma OlderTransitive(a: Stamp, b: Stamp, c: Stamp)
    requires Older(a, b) && Older(b, c)
    ensures Older(a, c)
  {
    if TimeOf(a) == TimeOf(b) == TimeOf(c) {
      LessTransitive(a.author, b.author, c.author);
    }
  }

  // ----- Pure meaning of the clock operations ----------------------------------------

  /** The clock after one local tick; `None` is counter overflow. */
  function Ticked(t: Time, now: u64): (r: Option<Time>)
    ensures r.Some? ==> Before(t, r.value)
    ensures r.None? <==> now <= t.wall && t.counter == U32_MAX
  {
    if now > t.wall then Some(Time(now, 0))
    else if t.counter == U32_MAX then None
    else Some(Time(t.wall, t.counter + 1))
  }

  function Max(a: nat, b: nat): nat { if a < b then b else a }

  function Successor(counter: u32): Option<u32> {
    if counter == U32_MAX then None else Some(counter + 1)
  }

  /** The clock after observing a remote version; it passes both the old clock and the version. */
  function Observed(t: Time, remote: Stamp, now: u64): (r: Option<Time>)
    ensures r.Some? ==> Before(t, r.value) && Before(TimeOf(remote), r.value) && now <= r.value.wall
  {
    var maxWall: u64 := Max(Max(t.wall, remote.wall), now);
    var next :=
      if maxWall == t.wall && maxWall == remote.wall then Successor(Max(t.counter, remote.counter))
      else if maxWall == t.wall then Successor(t.counter)
      else if maxWall == remote.wall then Successor(remote.counter)
      else Some(0);
    if next.None? then None else Some(Time(maxWall, next.value))
  }

  /** A tick goes to the least time above the clock that is not behind the wall clock. */
  lemma TickIsLeast(t: Time, now: u64, u: Time)
    requires Ticked(t, now).Some?
    ensures Before(t, Ticked(t, now).value) && now <= Ticked(t, now).value.wall
    ensures Before(t, u) && now <= u.wall ==> AtMost(Ticked(t, now).value, u)
  {
  }

  /** An observation goes to the least time above the clock and the version that is not behind the wall clock. */
  lemma ObservationIsLeast(t: Time, remote: Stamp, now: u64, u: Time)
    requires Observed(t, remote, now).Some?
    ensures Before(t, u) && Before(TimeOf(remote), u) && now <= u.wall ==> AtMost(Observed(t, remote, now).value, u)
  {
  }

  /** The clock after `n` local ticks at the same wall-clock reading. */
  function NthTick(t: Time, now: u64, n: nat): Option<Time> {
    if n == 0 then Some(t)
    else
      var previous := NthTick(t, now, n - 1);
      if previous.None? then None else Ticked(previous.value, now)
  }

  /** Successive ticks strictly increase, so versions handed out by one scan are distinct. */
  lemma {:induction false} TicksIncrease(t: Time, now: u64, i: nat, j: nat)
    requires i < j && NthTick(t, now, j).Some?
    ensures NthTick(t, now, i).Some?
    ensures Before(NthTick(t, now, i).value, NthTick(t, now, j).value)
  {
    if i < j - 1 { TicksIncrease(t, now, i, j - 1); }
  }

  /** The clock after observing versions one by one. */
  function ObservedAll(t: Time, stamps: seq<Stamp>, now: u64): Option<Time> {
    if stamps == [] then Some(t)
    else
      var previous := ObservedAll(t, stamps[..|stamps| - 1], now);
      if previous.None? then None else Observed(previous.value, stamps[|stamps| - 1], now)
  }

  /** Observing a list of versions dominates every one of them and never turns the clock back. */
  lemma {:induction false} ObservedAllDominates(t: Time, stamps: seq<Stamp>, now: u64)
    requires ObservedAll(t, stamps, now).Some?
    ensures AtMost(t, ObservedAll(t, stamps, now).value)
    ensures forall s :: s in stamps ==> Before(TimeOf(s), ObservedAll(t, stamps, now).value)
  {
    if stamps != [] {
      var front := stamps[..|stamps| - 1];
      ObservedAllDominates(t, front, now);
      forall s | s in stamps
        ensures Before(TimeOf(s), ObservedAll(t, stamps, now).value)
      {
        assert s in front || s == stamps[|stamps| - 1];
      }
    }
  }

  // ----- The mutable clock -----------------------------------------------------------

  class ClockState {
    var lastWall: u64
    var lastCounter: u32

    function Value(): Time
      reads this
    {
      Time(lastWall, lastCounter)
    }

    constructor (t: Time)
      ensures Value() == t
    {
      lastWall, lastCounter := t.wall, t.counter;
    }

    /** Advances the clock and issues a version strictly above everything issued before;
        on overflow nothing changes. */
    method Tick(now: u64, author: Key) returns (r: Option<Stamp>)
      modifies this
      ensures r.Some? <==> Ticked(old(Value()), now).Some?
      ensures r.Some? ==> Ticked(old(Value()), now) == Some(Value()) && Before(old(Value()), Value())
      ensures r.Some? ==> TimeOf(r.value) == Value() && r.value.author == author
      ensures r.None? ==> Value() == old(Value())
    {
      if now > lastWall {
        lastWall := now;
        lastCounter := 0;
      } else if lastCounter == U32_MAX {
        return None;
      } else {
        lastCounter := lastCounter + 1;
      }
      r := Some(Stamp(lastWall, lastCounter, author));
    }

    /** Moves the clock past a remote version; on overflow nothing changes. */
    method Observe(remote: Stamp, now: u64) returns (ok: bool)
      modifies this
      ensures ok <==> Observed(old(Value()), remote, now).Some?
      ensures ok ==> Observed(old(Value()), remote, now) == Some(Value())
      ensures ok ==> Before(old(Value()), Value()) && Before(TimeOf(remote), Value())
      ensures !ok ==> Value() == old(Value())
    {
      var maxWall := Max(Max(lastWall, remote.wall), now);
      var next: nat := 0;
      if maxWall == lastWall && maxWall == remote.wall {
        next := Max(lastCounter, remote.counter) + 1;
      } else if maxWall == lastWall {
        next := lastCounter + 1;
      } else if maxWall == remote.wall {
        next := remote.counter + 1;
      }
      if next > U32_MAX { return false; }
      lastWall, lastCounter := maxWall, next;
      return true;
    }
  }
}
