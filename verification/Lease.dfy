/**
  The local half of a node lease: a validated boot clock and an irreversible fence
  behind a conservative hard deadline.
 */
module Lease {
  import opened Common

  /** The mutable fields of a node lease; `deadline == 0` means that none is installed. */
  datatype LeaseState = LeaseState(deadline: nat, fenced: bool, draining: bool, ready: bool)

  const UNREGISTERED := LeaseState(0, false, false, true)

  /** Nanoseconds are kept in 64 bits and saturate. */
  function Nanoseconds(duration: nat): (ns: nat)
  {
    if duration > U64_MAX then U64_MAX else duration
  }

  predicate CheckPasses(lease: LeaseState, now: nat)
  {
    !lease.fenced && lease.deadline != 0 && Nanoseconds(now) < lease.deadline
  }

  predicate IsReady(lease: LeaseState, now: nat)
  {
    lease.ready && !lease.draining && CheckPasses(lease, now)
  }

  function Fence(lease: LeaseState): LeaseState
  {
    lease.(fenced := true)
  }

  /** A failed clock reading (`None`) fences exactly like an expired deadline. */
  function Check(lease: LeaseState, reading: Option<nat>): LeaseState
  {
    if lease.fenced || (reading.Some? && CheckPasses(lease, reading.value)) then lease else Fence(lease)
  }

  predicate CanInstall(lease: LeaseState, before: nat, ttl: nat, margin: nat, now: nat)
  {
    && !lease.fenced
    && before + ttl >= margin
    && (lease.deadline == 0 || Nanoseconds(now) < lease.deadline)
    && now < before + ttl - margin
  }

  function InstallDeadline(lease: LeaseState, before: nat, ttl: nat, margin: nat, reading: Option<nat>): LeaseState
  {
    if lease.fenced then lease
    else if reading.Some? && CanInstall(lease, before, ttl, margin, reading.value)
    then lease.(deadline := Nanoseconds(before + ttl - margin))
    else Fence(lease)
  }

  /** A validated reading of the boot clock. */
  datatype ClockResult = Reading(value: nat) | Unavailable | MovedBackwards

  /** The reading that survives validation against the last accepted one. */
  function Validated(last: Option<nat>, source: Option<nat>): Option<nat>
  {
    if source.Some? && last.Some? && source.value < last.value then None else source
  }

  /** `CLOCK_BOOTTIME` behind a guard that refuses to move backwards. */
  class BootClock {
    var last: Option<nat>

    constructor ()
      ensures last == None
    {
      last := None;
    }

    /** `source` is what the platform clock returned, `None` when it could not be read. */
    method Now(source: Option<nat>) returns (result: ClockResult)
      modifies this
      ensures result.Unavailable? <==> source == None
      ensures result.MovedBackwards? <==> source.Some? && old(last).Some? && source.value < old(last).value
      ensures result.Reading? ==> source == Some(result.value) && last == source
      ensures !result.Reading? ==> last == old(last)
      ensures old(last).Some? ==> last.Some? && old(last).value <= last.value
    {
      if source == None {
        return Unavailable;
      }
      if last.Some? && source.value < last.value {
        return MovedBackwards;
      }
      last := source;
      result := Reading(source.value);
    }
  }

  class NodeLease {
    const clock: BootClock
    const ttl: nat
    const margin: nat
    var deadline: nat
    var fenced: bool
    var draining: bool
    var ready: bool

    function View(): LeaseState
      reads this
    {
      LeaseState(deadline, fenced, draining, ready)
    }

    constructor (ttl: nat, margin: nat)
      ensures View() == UNREGISTERED && fresh(clock) && clock.last == None
      ensures this.ttl == ttl && this.margin == margin
    {
      this.ttl := ttl;
      this.margin := margin;
      clock := new BootClock();
      deadline := 0;
      fenced, draining, ready := false, false, true;
    }

    /** Success is exactly an unfenced lease read strictly before its installed deadline. */
    method CheckNow(source: Option<nat>) returns (ok: bool)
      modifies this`fenced, clock
      ensures View() == Check(old(View()), Validated(old(clock.last), source))
      ensures ok <==> Validated(old(clock.last), source).Some? && CheckPasses(old(View()), source.value)
      ensures ok ==> clock.last == source
      ensures old(clock.last).Some? ==> clock.last.Some? && old(clock.last).value <= clock.last.value
    {
      if fenced {
        return false;
      }
      var now := clock.Now(source);
      if !now.Reading? || deadline == 0 || Nanoseconds(now.value) >= deadline {
        fenced := true;
        return false;
      }
      ok := true;
    }

    /** Installing never raises a deadline that has already passed: it fences instead. */
    method Install(before: nat, source: Option<nat>) returns (ok: bool)
      modifies this`fenced, this`deadline, clock
      ensures View() == InstallDeadline(old(View()), before, ttl, margin, Validated(old(clock.last), source))
      ensures ok <==>
              !old(fenced) && before + ttl >= margin && Validated(old(clock.last), source).Some?
              && (old(deadline) == 0 || Nanoseconds(source.value) < old(deadline))
              && source.value < before + ttl - margin
      ensures ok ==> !fenced && deadline == Nanoseconds(before + ttl - margin) && deadline > 0
      ensures !ok ==> View() == Fence(old(View()))
    {
      if fenced {
        return false;
      }
      if before + ttl < margin {
        fenced := true;
        return false;
      }
      var candidate := before + ttl - margin;
      var now := clock.Now(source);
      if !now.Reading? || (deadline != 0 && Nanoseconds(now.value) >= deadline) || now.value >= candidate {
        fenced := true;
        return false;
      }
      deadline := Nanoseconds(candidate);
      ok := true;
    }
  }

  /** What a node may do to its own lease between two checks. */
  datatype LeaseEvent =
    | Checked(reading: Option<nat>)
    | Installed(before: nat, reading: Option<nat>)
    | HardFenced
    | DrainBegun
    | DependencySet(up: bool)

  function LeaseStep(lease: LeaseState, ttl: nat, margin: nat, event: LeaseEvent): LeaseState
  {
    match event
    case Checked(reading) => Check(lease, reading)
    case Installed(before, reading) => InstallDeadline(lease, before, ttl, margin, reading)
    case HardFenced => Fence(lease)
    case DrainBegun => lease.(draining := true)
    case DependencySet(up) => lease.(ready := up)
  }

  function LeaseRun(lease: LeaseState, ttl: nat, margin: nat, events: seq<LeaseEvent>): LeaseState
    decreases |events|
  {
    if events == [] then lease
    else LeaseRun(LeaseStep(lease, ttl, margin, events[0]), ttl, margin, events[1..])
  }

  /** No reading in `events` lies before boot time `now`. */
  predicate ReadingsFrom(events: seq<LeaseEvent>, now: nat)
  {
    forall i :: 0 <= i < |events| ==>
      (events[i].Checked? || events[i].Installed?) && events[i].reading.Some? ==> events[i].reading.value >= now
  }

  /**
    Once boot time has reached the installed deadline no later check succeeds, whatever
    renewals, checks and flag changes come in between.
   */
  lemma {:induction false} DeadlineIsFinal(
    lease: LeaseState, ttl: nat, margin: nat, events: seq<LeaseEvent>, now: nat, later: nat)
    requires lease.deadline != 0 && Nanoseconds(now) >= lease.deadline
    requires ReadingsFrom(events, now) && later >= now
    ensures !CheckPasses(LeaseRun(lease, ttl, margin, events), later)
    decreases |events|
  {
    if events != [] {
      var next := LeaseStep(lease, ttl, margin, events[0]);
      assert next.fenced || next.deadline == lease.deadline;
      if next.fenced {
        FencedIsFinal(next, ttl, margin, events[1..]);
      } else {
        DeadlineIsFinal(next, ttl, margin, events[1..], now, later);
      }
    }
  }

  /** A check before the deadline, or a renewal answered before both the old deadline and the new one. */
  predicate Timely(lease: LeaseState, ttl: nat, margin: nat, event: LeaseEvent)
  {
    match event
    case Checked(reading) => reading.Some? && lease.deadline != 0 && Nanoseconds(reading.value) < lease.deadline
    case Installed(before, reading) =>
      reading.Some? && (lease.deadline == 0 || Nanoseconds(reading.value) < lease.deadline)
      && margin <= before + ttl && reading.value < before + ttl - margin
    case HardFenced => false
    case _ => true
  }

  predicate AllTimely(lease: LeaseState, ttl: nat, margin: nat, events: seq<LeaseEvent>)
    decreases |events|
  {
    events == []
    || (Timely(lease, ttl, margin, events[0])
        && AllTimely(LeaseStep(lease, ttl, margin, events[0]), ttl, margin, events[1..]))
  }

  /** The deadline the last renewal of a run installs. */
  function LastDeadline(deadline: nat, ttl: nat, margin: nat, events: seq<LeaseEvent>): nat
    decreases |events|
  {
    if events == [] then deadline
    else
      var last := events[|events| - 1];
      if last.Installed? && margin <= last.before + ttl then Nanoseconds(last.before + ttl - margin)
      else LastDeadline(deadline, ttl, margin, events[..|events| - 1])
  }

  lemma {:induction false} RunSplits(lease: LeaseState, ttl: nat, margin: nat, front: seq<LeaseEvent>, last: LeaseEvent)
    ensures LeaseRun(lease, ttl, margin, front + [last])
            == LeaseStep(LeaseRun(lease, ttl, margin, front), ttl, margin, last)
    ensures AllTimely(lease, ttl, margin, front + [last]) <==>
            AllTimely(lease, ttl, margin, front) && Timely(LeaseRun(lease, ttl, margin, front), ttl, margin, last)
    decreases |front|
  {
    var all := front + [last];
    if front == [] {
      assert all[1..] == [];
    } else {
      assert all[0] == front[0] && all[1..] == front[1..] + [last];
      RunSplits(LeaseStep(lease, ttl, margin, front[0]), ttl, margin, front[1..], last);
    }
  }

  /** A node whose checks and renewals are all in time is never fenced, and each renewal installs its deadline. */
  lemma {:induction false} TimelyRunStaysUnfenced(lease: LeaseState, ttl: nat, margin: nat, events: seq<LeaseEvent>)
    requires !lease.fenced && AllTimely(lease, ttl, margin, events)
    ensures !LeaseRun(lease, ttl, margin, events).fenced
    ensures LeaseRun(lease, ttl, margin, events).deadline == LastDeadline(lease.deadline, ttl, margin, events)
    decreases |events|
  {
    if events != [] {
      var front, last := events[..|events| - 1], events[|events| - 1];
      assert events == front + [last];
      RunSplits(lease, ttl, margin, front, last);
      TimelyRunStaysUnfenced(lease, ttl, margin, front);
    }
  }

  /** The first event that is not in time, or a hard fence, is what fences a node. */
  lemma UntimelyEventFences(lease: LeaseState, ttl: nat, margin: nat, event: LeaseEvent)
    requires !lease.fenced
    ensures LeaseStep(lease, ttl, margin, event).fenced <==> !Timely(lease, ttl, margin, event)
  {
  }

  lemma {:induction false} FencedIsFinal(lease: LeaseState, ttl: nat, margin: nat, events: seq<LeaseEvent>)
    requires lease.fenced
    ensures LeaseRun(lease, ttl, margin, events).fenced
    decreases |events|
  {
    if events != [] {
      FencedIsFinal(LeaseStep(lease, ttl, margin, events[0]), ttl, margin, events[1..]);
    }
  }
}
