/** The per-source admission window in front of authentication. */
module Admission {

  type Source = nat

  const MAX_SOURCES: nat := 4096
  const MAX_ACTIVE: nat := 4
  const MAX_ATTEMPTS: nat := 256
  const WINDOW: nat := 60_000_000_000

  /** Instants are nanoseconds. */
  datatype Entry = Entry(active: nat, attempts: nat, expires: int)

  type Entries = map<Source, Entry>

  function Retained(entries: Entries, now: int): (kept: Entries)
    ensures kept.Keys <= entries.Keys
  {
    map s | s in entries && (entries[s].active != 0 || entries[s].expires > now) :: entries[s]
  }

  /** An idle entry whose window is over starts a new one. */
  function Restarted(e: Entry, now: int): Entry
  {
    if e.active == 0 && e.expires <= now then Entry(0, 0, now + WINDOW) else e
  }

  /** The entry an attempt is counted in. */
  function Current(entries: Entries, s: Source, now: int): Entry
  {
    Restarted(if s in entries then entries[s] else Entry(0, 0, now + WINDOW), now)
  }

  predicate Admits(entries: Entries, s: Source, now: int)
  {
    var kept := Retained(entries, now);
    (s in kept || |kept| < MAX_SOURCES)
    && Current(kept, s, now).active < MAX_ACTIVE && Current(kept, s, now).attempts < MAX_ATTEMPTS
  }

  function Acquired(entries: Entries, s: Source, now: int): Entries
  {
    var kept := Retained(entries, now);
    if s !in kept && |kept| >= MAX_SOURCES then kept
    else
      var e := Current(kept, s, now);
      kept[s := if Admits(entries, s, now) then e.(active := e.active + 1, attempts := e.attempts + 1) else e]
  }

  function Released(entries: Entries, s: Source): Entries
  {
    if s in entries
    then entries[s := entries[s].(active := if entries[s].active >= 1 then entries[s].active - 1 else 0)]
    else entries
  }

  class SourceAdmission {
    var entries: Entries

    constructor ()
      ensures entries == map[]
    {
      entries := map[];
    }

    /** `now` was read before the lock was taken. */
    method TryAcquire(s: Source, now: int) returns (permit: bool)
      modifies this
      ensures permit == Admits(old(entries), s, now) && entries == Acquired(old(entries), s, now)
    {
      entries := Retained(entries, now);
      if s !in entries && |entries| >= MAX_SOURCES {
        return false;
      }
      var entry := if s in entries then entries[s] else Entry(0, 0, now + WINDOW);
      entry := Restarted(entry, now);
      if entry.active >= MAX_ACTIVE || entry.attempts >= MAX_ATTEMPTS {
        entries := entries[s := entry];
        return false;
      }
      entries := entries[s := entry.(active := entry.active + 1, attempts := entry.attempts + 1)];
      return true;
    }

    method DropPermit(s: Source)
      modifies this
      ensures entries == Released(old(entries), s)
    {
      if s in entries {
        var e := entries[s];
        entries := entries[s := e.(active := if e.active >= 1 then e.active - 1 else 0)];
      }
    }
  }

  // ---- Runs ----

  datatype Attempt = Attempt(source: Source, time: int)

  /** `live`: permits not yet dropped; `log`: admitted attempts; `clock`: the latest instant read. */
  datatype State = State(entries: Entries, live: multiset<Source>, log: seq<Attempt>, clock: int)

  datatype Event = Acquire(source: Source, now: int) | Drop(source: Source)

  predicate Enabled(st: State, e: Event)
  {
    e.Drop? ==> e.source in st.live
  }

  function Step(st: State, e: Event): State
  {
    match e
    case Acquire(s, now) =>
      var entries := Acquired(st.entries, s, now);
      var clock := if now > st.clock then now else st.clock;
      if Admits(st.entries, s, now)
      then State(entries, st.live + multiset{s}, st.log + [Attempt(s, now)], clock)
      else st.(entries := entries, clock := clock)
    case Drop(s) => st.(entries := Released(st.entries, s), live := st.live - multiset{s})
  }

  const Initial := State(map[], multiset{}, [], 0)

  predicate IsRun(states: seq<State>, events: seq<Event>)
  {
    |states| == |events| + 1 && states[0] == Initial
    && forall i :: 0 <= i < |events| ==> Enabled(states[i], events[i]) && states[i + 1] == Step(states[i], events[i])
  }

  /** Counters match the live permits; limits hold. No assumption about the order of instants. */
  predicate SourceOk(st: State, s: Source)
  {
    (s in st.live ==> s in st.entries)
    && (s in st.entries ==> st.entries[s].active == st.live[s] <= MAX_ACTIVE && st.entries[s].attempts <= MAX_ATTEMPTS)
  }

  ghost predicate CountsOk(st: State)
  {
    |st.entries| <= MAX_SOURCES && forall s :: SourceOk(st, s)
  }

  lemma SubmapSize(a: Entries, b: Entries)
    requires a.Keys <= b.Keys
    ensures |a| <= |b|
  {
    assert |a| == |a.Keys| && |b| == |b.Keys|;
    assert b.Keys == a.Keys + (b.Keys - a.Keys);
  }

  lemma StepCounts(st: State, e: Event)
    requires CountsOk(st) && Enabled(st, e)
    ensures CountsOk(Step(st, e))
  {
    var st' := Step(st, e);
    if e.Acquire? {
      var kept := Retained(st.entries, e.now);
      SubmapSize(kept, st.entries);
      if e.source in kept {
        SubmapSize(st'.entries, kept);
      }
    } else {
      SubmapSize(st'.entries, st.entries);
    }
    forall s ensures SourceOk(st', s) {
      assert SourceOk(st, s);
    }
  }

  lemma {:induction false} RunCounts(states: seq<State>, events: seq<Event>, i: nat)
    requires IsRun(states, events) && i < |states|
    ensures CountsOk(states[i])
  {
    if i > 0 {
      RunCounts(states, events, i - 1);
      StepCounts(states[i - 1], events[i - 1]);
    }
  }

  /** A live permit always finds its entry, so dropping it gives back exactly one slot. */
  lemma DropIsExact(states: seq<State>, events: seq<Event>, i: nat)
    requires IsRun(states, events) && i < |events| && events[i].Drop?
    ensures var s := events[i].source;
            s in states[i].entries && s in states[i + 1].entries
            && states[i + 1].entries[s].active == states[i].entries[s].active - 1 == states[i + 1].live[s]
  {
    RunCounts(states, events, i);
    assert SourceOk(states[i], events[i].source);
  }
}
