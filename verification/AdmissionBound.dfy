/**
  How many attempts of one source an interval can admit, given how far an instant may lag: the
  clock is read before the lock is taken, so instants can overtake each other.
 */
module AdmissionBound {
  import opened Admission

  /** The instant lags the latest one read by at most `d`. */
  predicate Prompt(st: State, e: Event, d: nat)
  {
    e.Acquire? ==> e.now >= st.clock - d
  }

  predicate Lagging(states: seq<State>, events: seq<Event>, d: nat)
  {
    |events| <= |states| && forall j :: 0 <= j < |events| ==> Prompt(states[j], events[j], d)
  }

  // ---- Counting ----

  function Since(log: seq<Attempt>, s: Source, low: int): nat
  {
    if log == [] then 0
    else
      var last := log[|log| - 1];
      Since(log[..|log| - 1], s, low) + if last.source == s && low <= last.time then 1 else 0
  }

  function Total(log: seq<Attempt>, s: Source): nat
  {
    if log == [] then 0 else Total(log[..|log| - 1], s) + if log[|log| - 1].source == s then 1 else 0
  }

  /** Admitted attempts of a source in the interval of `length` from `t`, its end excluded. */
  function Span(log: seq<Attempt>, s: Source, t: int, length: nat): nat
  {
    if log == [] then 0
    else
      var last := log[|log| - 1];
      Span(log[..|log| - 1], s, t, length) + if last.source == s && t <= last.time < t + length then 1 else 0
  }

  lemma {:induction false} CountsAgree(log: seq<Attempt>, s: Source, t: int, length: nat)
    ensures Span(log, s, t, length) <= Since(log, s, t) <= Total(log, s)
    decreases |log|
  {
    if log != [] {
      CountsAgree(log[..|log| - 1], s, t, length);
    }
  }

  lemma {:induction false} CountsSplit(a: seq<Attempt>, b: seq<Attempt>, s: Source, t: int, length: nat)
    ensures Since(a + b, s, t) == Since(a, s, t) + Since(b, s, t) && Total(a + b, s) == Total(a, s) + Total(b, s)
    ensures Span(a + b, s, t, length) == Span(a, s, t, length) + Span(b, s, t, length)
    decreases |b|
  {
    if b == [] {
      assert a + b == a;
    } else {
      assert (a + b)[..|a + b| - 1] == a + b[..|b| - 1];
      CountsSplit(a, b[..|b| - 1], s, t, length);
    }
  }

  lemma CountsOne(a: Attempt, s: Source, t: int, length: nat)
    ensures Since([a], s, t) == if a.source == s && t <= a.time then 1 else 0
    ensures Total([a], s) == if a.source == s then 1 else 0
    ensures Span([a], s, t, length) == if a.source == s && t <= a.time < t + length then 1 else 0
  {
    assert [a][..0] == [];
  }

  // ---- Windows under lag ----

  /**
    The previous window of `s` was retired when the clock read `r` and `k` attempts had been
    admitted. Later instants are at least `r - d`; the window before that one had been retired
    by `r + d - WINDOW`.
   */
  ghost predicate WindowAt(st: State, s: Source, r: int, k: nat, d: nat)
  {
    k <= |st.log| && r <= st.clock && Total(st.log[k..], s) <= MAX_ATTEMPTS
    && (forall t: int :: t > r + d - WINDOW ==> Since(st.log[..k], s, t) <= MAX_ATTEMPTS)
    && (forall t: int :: t > r ==> Since(st.log[..k], s, t) == 0)
    && if s in st.entries
       then st.entries[s].expires - WINDOW >= r - d && Total(st.log[k..], s) == st.entries[s].attempts
       else Total(st.log[k..], s) == 0
  }

  ghost predicate HasWindow(st: State, s: Source, d: nat)
  {
    exists r: int, k: nat :: WindowAt(st, s, r, k, d)
  }

  /** No interval of `length` holds more than two windows' attempts, and none lie ahead of the clock. */
  ghost predicate Bounded(st: State, s: Source, length: nat)
  {
    (forall t: int :: Span(st.log, s, t, length) <= 2 * MAX_ATTEMPTS)
    && forall t: int :: t > st.clock ==> Since(st.log, s, t) == 0
  }

  function Later(st: State, now: int): int
  {
    if now > st.clock then now else st.clock
  }

  /** The first half of an acquisition: the clock advances and idle, expired entries are retired. */
  function Retire(st: State, now: int): State
  {
    st.(entries := Retained(st.entries, now), clock := Later(st, now))
  }

  lemma StepRetires(st: State, x: Source, now: int)
    ensures Step(st, Acquire(x, now)) == Step(Retire(st, now), Acquire(x, now))
  {
    assert Retained(Retained(st.entries, now), now) == Retained(st.entries, now);
  }

  /** A retired window leaves at most its own attempts after `clock + d - WINDOW`. */
  lemma RetiredBounds(st: State, s: Source, r: int, k: nat, d: nat, now: int)
    requires WindowAt(st, s, r, k, d) && s in st.entries && st.entries[s].expires <= now
    ensures forall t: int :: t > Later(st, now) + d - WINDOW ==> Since(st.log, s, t) <= MAX_ATTEMPTS
  {
    forall t: int | t > Later(st, now) + d - WINDOW ensures Since(st.log, s, t) <= MAX_ATTEMPTS {
      assert st.log == st.log[..k] + st.log[k..];
      CountsSplit(st.log[..k], st.log[k..], s, t, 0);
      CountsAgree(st.log[k..], s, t, 0);
    }
  }

  lemma RetireKeeps(st: State, s: Source, r: int, k: nat, d: nat, length: nat, now: int)
    requires WindowAt(st, s, r, k, d) && Bounded(st, s, length)
    ensures HasWindow(Retire(st, now), s, d) && Bounded(Retire(st, now), s, length)
  {
    var st' := Retire(st, now);
    if s in st.entries && s !in st'.entries {
      RetiredBounds(st, s, r, k, d, now);
      var n := |st.log|;
      assert st.log[n..] == [] && st.log[..n] == st.log;
      assert WindowAt(st', s, st'.clock, n, d);
    } else {
      assert WindowAt(st', s, r, k, d);
    }
  }

  /** An interval reaching the newest attempt spans its window and at most one other. */
  lemma AdmittedBounds(st: State, s: Source, r: int, k: nat, d: nat, length: nat, now: int)
    requires k <= |st.log| && Bounded(st, s, length) && Total(st.log[k..], s) < MAX_ATTEMPTS
    requires now >= r - d && length + 2 * d <= WINDOW
    requires forall t: int :: t > r + d - WINDOW ==> Since(st.log[..k], s, t) <= MAX_ATTEMPTS
    ensures forall t: int :: Span(st.log + [Attempt(s, now)], s, t, length) <= 2 * MAX_ATTEMPTS
  {
    var a := Attempt(s, now);
    forall t: int ensures Span(st.log + [a], s, t, length) <= 2 * MAX_ATTEMPTS {
      CountsSplit(st.log, [a], s, t, length);
      CountsOne(a, s, t, length);
      if t <= now < t + length {
        assert st.log == st.log[..k] + st.log[k..];
        CountsSplit(st.log[..k], st.log[k..], s, t, length);
        CountsAgree(st.log[..k], s, t, length);
        CountsAgree(st.log[k..], s, t, length);
      }
    }
  }

  lemma NothingAhead(st: State, a: Attempt, s: Source, length: nat)
    requires Bounded(st, s, length) && a.time <= st.clock
    ensures forall t: int :: t > st.clock ==> Since(st.log + [a], s, t) == 0
  {
    forall t: int | t > st.clock ensures Since(st.log + [a], s, t) == 0 {
      CountsSplit(st.log, [a], s, t, length);
      CountsOne(a, s, t, length);
    }
  }

  /** Nothing is left to retire at `now`, which the clock has reached and does not lead by more than `d`. */
  predicate Settled(st: State, now: int, d: nat)
  {
    Retained(st.entries, now) == st.entries && st.clock - d <= now <= st.clock
  }

  lemma AdmittedKeeps(st: State, s: Source, r: int, k: nat, d: nat, length: nat, now: int)
    requires WindowAt(st, s, r, k, d) && Bounded(st, s, length) && length + 2 * d <= WINDOW
    requires Settled(st, now, d) && Admits(st.entries, s, now)
    ensures HasWindow(Step(st, Acquire(s, now)), s, d) && Bounded(Step(st, Acquire(s, now)), s, length)
  {
    var a, st' := Attempt(s, now), Step(st, Acquire(s, now));
    NothingAhead(st, a, s, length);
    AdmittedBounds(st, s, r, k, d, length, now);
    assert st'.log[k..] == st.log[k..] + [a] && st'.log[..k] == st.log[..k];
    CountsSplit(st.log[k..], [a], s, 0, 0);
    CountsOne(a, s, 0, 0);
    assert WindowAt(st', s, r, k, d);
  }

  lemma RefusedKeeps(st: State, s: Source, r: int, k: nat, d: nat, length: nat, now: int)
    requires WindowAt(st, s, r, k, d) && Bounded(st, s, length)
    requires Settled(st, now, d) && !Admits(st.entries, s, now)
    ensures HasWindow(Step(st, Acquire(s, now)), s, d) && Bounded(Step(st, Acquire(s, now)), s, length)
  {
    assert WindowAt(Step(st, Acquire(s, now)), s, r, k, d);
  }

  /** What another source's attempt may do to `s` once nothing is left to retire. */
  lemma OtherStep(st: State, s: Source, x: Source, now: int, d: nat)
    requires Settled(st, now, d) && x != s
    ensures var st' := Step(st, Acquire(x, now));
            (s in st'.entries <==> s in st.entries) && (s in st.entries ==> st'.entries[s] == st.entries[s])
            && st'.clock == st.clock && (st'.log == st.log || st'.log == st.log + [Attempt(x, now)])
  {
  }

  lemma OtherLogged(log: seq<Attempt>, a: Attempt, s: Source, k: nat)
    requires a.source != s && k <= |log|
    ensures forall t: int, length: nat :: Span(log + [a], s, t, length) == Span(log, s, t, length)
    ensures forall t: int :: Since(log + [a], s, t) == Since(log, s, t)
    ensures (log + [a])[..k] == log[..k] && Total((log + [a])[k..], s) == Total(log[k..], s)
  {
    forall t: int, length: nat ensures Span(log + [a], s, t, length) == Span(log, s, t, length) {
      CountsSplit(log, [a], s, t, length);
      CountsOne(a, s, t, length);
    }
    forall t: int ensures Since(log + [a], s, t) == Since(log, s, t) {
      CountsSplit(log, [a], s, t, 0);
      CountsOne(a, s, t, 0);
    }
    assert (log + [a])[k..] == log[k..] + [a];
    CountsSplit(log[k..], [a], s, 0, 0);
    CountsOne(a, s, 0, 0);
  }

  lemma OtherKeeps(st: State, s: Source, r: int, k: nat, d: nat, length: nat, x: Source, now: int)
    requires WindowAt(st, s, r, k, d) && Bounded(st, s, length) && Settled(st, now, d) && x != s
    ensures HasWindow(Step(st, Acquire(x, now)), s, d) && Bounded(Step(st, Acquire(x, now)), s, length)
  {
    hide Step, Span, Since, Total;
    var st' := Step(st, Acquire(x, now));
    OtherStep(st, s, x, now, d);
    OtherLogged(st.log, Attempt(x, now), s, k);
    assert WindowAt(st', s, r, k, d);
  }

  lemma AcquireKeeps(st: State, s: Source, d: nat, length: nat, x: Source, now: int)
    requires HasWindow(st, s, d) && Bounded(st, s, length) && length + 2 * d <= WINDOW && now >= st.clock - d
    ensures HasWindow(Step(st, Acquire(x, now)), s, d) && Bounded(Step(st, Acquire(x, now)), s, length)
  {
    hide WindowAt, Bounded, Step;
    var r: int, k: nat :| WindowAt(st, s, r, k, d);
    RetireKeeps(st, s, r, k, d, length, now);
    StepRetires(st, x, now);
    var st1 := Retire(st, now);
    assert Retained(st1.entries, now) == st1.entries;
    var r1: int, k1: nat :| WindowAt(st1, s, r1, k1, d);
    if x != s {
      OtherKeeps(st1, s, r1, k1, d, length, x, now);
    } else if Admits(st1.entries, s, now) {
      AdmittedKeeps(st1, s, r1, k1, d, length, now);
    } else {
      RefusedKeeps(st1, s, r1, k1, d, length, now);
    }
  }

  lemma DropKeeps(st: State, s: Source, d: nat, length: nat, x: Source)
    requires HasWindow(st, s, d) && Bounded(st, s, length)
    ensures HasWindow(Step(st, Drop(x)), s, d) && Bounded(Step(st, Drop(x)), s, length)
  {
    var r: int, k: nat :| WindowAt(st, s, r, k, d);
    assert WindowAt(Step(st, Drop(x)), s, r, k, d);
  }

  lemma StartBounded(s: Source, d: nat, length: nat)
    ensures HasWindow(Initial, s, d) && Bounded(Initial, s, length)
  {
    assert WindowAt(Initial, s, 0, 0, d);
  }

  lemma {:induction false} RunBounded(states: seq<State>, events: seq<Event>, i: nat, s: Source, d: nat, length: nat)
    requires IsRun(states, events) && Lagging(states, events, d) && i < |states| && length + 2 * d <= WINDOW
    ensures HasWindow(states[i], s, d) && Bounded(states[i], s, length)
  {
    hide HasWindow, Bounded, Step;
    if i == 0 {
      StartBounded(s, d, length);
    } else {
      RunBounded(states, events, i - 1, s, d, length);
      assert Prompt(states[i - 1], events[i - 1], d);
      match events[i - 1]
      case Acquire(x, now) => AcquireKeeps(states[i - 1], s, d, length, x, now);
      case Drop(x) => DropKeeps(states[i - 1], s, d, length, x);
    }
  }

  /** Under lag at most `d`, every interval of length `WINDOW - 2 * d` admits at most 512 attempts of a source. */
  lemma SpanIsBounded(states: seq<State>, events: seq<Event>, i: nat, s: Source, t: int, d: nat, length: nat)
    requires IsRun(states, events) && Lagging(states, events, d) && i < |states| && length + 2 * d <= WINDOW
    ensures Span(states[i].log, s, t, length) <= 512
  {
    RunBounded(states, events, i, s, d, length);
  }

  /** With instants in lock order, no half-open minute admits more than 512 attempts of a source. */
  lemma MinuteIsBounded(states: seq<State>, events: seq<Event>, i: nat, s: Source, t: int)
    requires IsRun(states, events) && Lagging(states, events, 0) && i < |states|
    ensures Span(states[i].log, s, t, WINDOW) <= 512
  {
    SpanIsBounded(states, events, i, s, t, 0, WINDOW);
  }
}
