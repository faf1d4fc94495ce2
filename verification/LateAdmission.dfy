/**
  A run whose late instants squeeze three windows of one source into an interval, and with it the
  exact length up to which an interval's attempts are bounded.
 */
module LateAdmission {
  import opened Admission
  import opened AdmissionBound

  // ---- Runs of events ----

  function Trace(st: State, events: seq<Event>): (states: seq<State>)
    ensures |states| == |events| + 1 && states[0] == st
    decreases |events|
  {
    if events == [] then [st] else [st] + Trace(Step(st, events[0]), events[1..])
  }

  function After(st: State, events: seq<Event>): State
    decreases |events|
  {
    if events == [] then st else After(Step(st, events[0]), events[1..])
  }

  predicate Possible(st: State, events: seq<Event>, d: nat)
    decreases |events|
  {
    events == []
    || (Enabled(st, events[0]) && Prompt(st, events[0], d) && Possible(Step(st, events[0]), events[1..], d))
  }

  lemma {:induction false} TraceRuns(st: State, events: seq<Event>, d: nat)
    requires Possible(st, events, d)
    ensures var states := Trace(st, events);
            states[|events|] == After(st, events) && Lagging(states, events, d)
            && forall i :: 0 <= i < |events| ==>
                 Enabled(states[i], events[i]) && states[i + 1] == Step(states[i], events[i])
    decreases |events|
  {
    hide Step, Enabled, Prompt;
    if events != [] {
      var states, rest := Trace(st, events), Trace(Step(st, events[0]), events[1..]);
      TraceRuns(Step(st, events[0]), events[1..], d);
      forall i | 0 <= i < |events|
        ensures Prompt(states[i], events[i], d) && Enabled(states[i], events[i])
        ensures states[i + 1] == Step(states[i], events[i])
      {
        if i > 0 { assert events[i] == events[1..][i - 1] && states[i] == rest[i - 1]; }
      }
    }
  }

  lemma {:induction false} PossibleSplit(st: State, a: seq<Event>, b: seq<Event>, d: nat)
    requires Possible(st, a, d) && Possible(After(st, a), b, d)
    ensures Possible(st, a + b, d) && After(st, a + b) == After(After(st, a), b)
    decreases |a|
  {
    hide Step, Enabled, Prompt;
    if a == [] {
      assert a + b == b;
    } else {
      assert (a + b)[0] == a[0] && (a + b)[1..] == a[1..] + b;
      PossibleSplit(Step(st, a[0]), a[1..], b, d);
    }
  }

  // ---- A run that breaks the bound ----

  /**
    Where source 0 stands in a run that otherwise involves only source 1, which is idle with at
    most `m` attempts; nothing else about the state matters.
   */
  predicate At(st: State, own: Entry, m: nat)
  {
    st.entries.Keys <= {0, 1} && 0 in st.entries && st.entries[0] == own && st.live[0] == own.active
    && (1 in st.entries ==> st.entries[1].active == 0 && st.entries[1].attempts <= m)
  }

  predicate Absent(st: State, m: nat)
  {
    st.entries.Keys <= {0, 1} && 0 !in st.entries && st.live[0] == 0
    && (1 in st.entries ==> st.entries[1].active == 0 && st.entries[1].attempts <= m)
  }

  lemma FewSources(entries: Entries)
    requires entries.Keys <= {0, 1}
    ensures |entries| < MAX_SOURCES
  {
    SubmapSize(entries, map[0 := Entry(0, 0, 0), 1 := Entry(0, 0, 0)]);
  }

  lemma Opens(st: State, now: int, m: nat)
    requires Absent(st, m)
    ensures var st' := Step(st, Acquire(0, now));
            At(st', Entry(1, 1, now + WINDOW), m) && st'.log == st.log + [Attempt(0, now)]
              && st'.clock == Later(st, now)
  {
    FewSources(Retained(st.entries, now));
  }

  lemma Joins(st: State, own: Entry, now: int, m: nat)
    requires At(st, own, m) && own.active < MAX_ACTIVE && own.attempts < MAX_ATTEMPTS
    requires own.active > 0 || own.expires > now
    ensures var st' := Step(st, Acquire(0, now));
            At(st', own.(active := own.active + 1, attempts := own.attempts + 1), m)
            && st'.log == st.log + [Attempt(0, now)] && st'.clock == Later(st, now)
  {
  }

  lemma Leaves(st: State, own: Entry, m: nat)
    requires At(st, own, m) && own.active > 0
    ensures Enabled(st, Drop(0))
    ensures var st' := Step(st, Drop(0));
            At(st', own.(active := own.active - 1), m) && st'.log == st.log && st'.clock == st.clock
  {
  }

  /** Source 1 arrives at `now` and leaves; the idle, expired entry of source 0 is retired. */
  lemma Purges(st: State, own: Entry, now: int, m: nat)
    requires At(st, own, m) && own.active == 0 && own.expires <= now && m < MAX_ATTEMPTS
    ensures var st1 := Step(st, Acquire(1, now)); Enabled(st1, Drop(1))
    ensures var st' := Step(Step(st, Acquire(1, now)), Drop(1));
            Absent(st', m + 1) && st'.log == st.log + [Attempt(1, now)] && st'.clock == Later(st, now)
  {
    FewSources(Retained(st.entries, now));
    var st1 := Step(st, Acquire(1, now));
    assert Admits(st.entries, 1, now);
    assert 1 in st1.entries && st1.entries[1].active == 1 && 0 !in st1.entries;
  }

  lemma TwoEvents(st: State, e: Event, f: Event, d: nat)
    requires Enabled(st, e) && Prompt(st, e, d) && Enabled(Step(st, e), f) && Prompt(Step(st, e), f, d)
    ensures Possible(st, [e, f], d) && After(st, [e, f]) == Step(Step(st, e), f)
  {
    hide Step, Enabled, Prompt;
    assert [e, f][1..] == [f] && [f][1..] == [];
    assert Possible(Step(st, e), [f], d) && After(Step(st, e), [f]) == Step(Step(st, e), f);
  }

  function Burst(now: int, k: nat): seq<Event>
  {
    if k == 0 then [] else [Acquire(0, now), Drop(0)] + Burst(now, k - 1)
  }

  function Repeated(a: Attempt, k: nat): seq<Attempt>
  {
    if k == 0 then [] else [a] + Repeated(a, k - 1)
  }

  lemma PairRuns(st: State, own: Entry, now: int, m: nat, d: nat)
    requires At(st, own, m) && own.active < MAX_ACTIVE && own.attempts < MAX_ATTEMPTS
    requires (own.active > 0 || own.expires > now) && st.clock - d <= now <= st.clock
    ensures Possible(st, [Acquire(0, now), Drop(0)], d)
    ensures var st' := After(st, [Acquire(0, now), Drop(0)]);
            At(st', own.(attempts := own.attempts + 1), m)
            && st'.log == st.log + [Attempt(0, now)] && st'.clock == st.clock
  {
    hide Step, At, Possible, After;
    Joins(st, own, now, m);
    var st1 := Step(st, Acquire(0, now));
    Leaves(st1, own.(active := own.active + 1, attempts := own.attempts + 1), m);
    TwoEvents(st, Acquire(0, now), Drop(0), d);
  }

  /** `k` attempts of source 0 at an instant the clock has reached, each dropped at once. */
  lemma {:induction false} BurstRuns(st: State, own: Entry, now: int, k: nat, m: nat, d: nat)
    requires At(st, own, m) && own.active < MAX_ACTIVE && own.attempts + k <= MAX_ATTEMPTS
    requires (own.active > 0 || own.expires > now) && st.clock - d <= now <= st.clock
    ensures Possible(st, Burst(now, k), d)
    ensures var st' := After(st, Burst(now, k));
            At(st', own.(attempts := own.attempts + k), m)
            && st'.log == st.log + Repeated(Attempt(0, now), k) && st'.clock == st.clock
    decreases k
  {
    hide Step, At, Possible, After, Enabled, Prompt, Burst, Repeated;
    BurstUnfolds(now, k);
    RepeatedUnfolds(st.log, Attempt(0, now), k);
    if k == 0 {
      NoEvents(st, d);
    } else {
      var one, pair := own.(attempts := own.attempts + 1), [Acquire(0, now), Drop(0)];
      PairRuns(st, own, now, m, d);
      BurstRuns(After(st, pair), one, now, k - 1, m, d);
      PossibleSplit(st, pair, Burst(now, k - 1), d);
      assert one.(attempts := one.attempts + (k - 1)) == own.(attempts := own.attempts + k);
    }
  }

  lemma BurstUnfolds(now: int, k: nat)
    ensures k == 0 ==> Burst(now, k) == []
    ensures k > 0 ==> Burst(now, k) == [Acquire(0, now), Drop(0)] + Burst(now, k - 1)
  {
  }

  lemma RepeatedUnfolds(log: seq<Attempt>, a: Attempt, k: nat)
    ensures k == 0 ==> log + Repeated(a, k) == log
    ensures k > 0 ==> log + Repeated(a, k) == log + [a] + Repeated(a, k - 1)
  {
  }

  lemma NoEvents(st: State, d: nat)
    ensures Possible(st, [], d) && After(st, []) == st
  {
  }

  // Each window of the run admits `n` attempts, its limit.

  /** The first window: opened at 0 and held past its end, so that all but one attempt come at `WINDOW`. */
  function First(n: nat): seq<Event>
    requires n >= 2
  {
    [Acquire(0, 0), Acquire(0, WINDOW)] + [Drop(0)] + Burst(WINDOW, n - 2) + [Drop(0)]
  }

  /** The second: source 1 retires the first, a late instant opens it, the rest come at `WINDOW`. */
  function Second(n: nat, d: nat): seq<Event>
    requires n >= 2
  {
    Next(WINDOW, d, WINDOW, n - 1)
  }

  /** The third: source 1 retires the second, and a late instant opens it. */
  function Third(d: nat): seq<Event>
  {
    Next(2 * WINDOW - d, d, 2 * WINDOW - 2 * d, 2)
  }

  /** A window retired at `late`, the next one opened `d` earlier, and `k` attempts at `now`. */
  function Next(late: int, d: nat, now: int, k: nat): seq<Event>
  {
    [Acquire(1, late), Drop(1)] + ([Acquire(0, late - d), Drop(0)] + Burst(now, k))
  }

  function FirstLog(n: nat): seq<Attempt>
    requires n >= 2
  {
    [Attempt(0, 0)] + [Attempt(0, WINDOW)] + Repeated(Attempt(0, WINDOW), n - 2)
  }

  function NextLog(late: int, d: nat, now: int, k: nat): seq<Attempt>
  {
    [Attempt(1, late)] + [Attempt(0, late - d)] + Repeated(Attempt(0, now), k)
  }

  function LateLog(n: nat, d: nat): seq<Attempt>
    requires n >= 2
  {
    FirstLog(n) + NextLog(WINDOW, d, WINDOW, n - 1) + NextLog(2 * WINDOW - d, d, 2 * WINDOW - 2 * d, 2)
  }

  lemma FirstRuns(n: nat, d: nat)
    requires n == MAX_ATTEMPTS
    ensures Possible(Initial, First(n), d)
    ensures var st := After(Initial, First(n));
            At(st, Entry(0, n, WINDOW), 0) && st.log == FirstLog(n) && st.clock == WINDOW
  {
    hide Step, At, Burst, Repeated, Possible, After, Absent;
    StartIsAbsent();
    Opens(Initial, 0, 0);
    var s1 := Step(Initial, Acquire(0, 0));
    Joins(s1, Entry(1, 1, WINDOW), WINDOW, 0);
    TwoEvents(Initial, Acquire(0, 0), Acquire(0, WINDOW), d);
    var s2 := Step(s1, Acquire(0, WINDOW));
    OneDrop(s2, Entry(2, 2, WINDOW), 0, d);
    var s3 := Step(s2, Drop(0));
    BurstRuns(s3, Entry(1, 2, WINDOW), WINDOW, n - 2, 0, d);
    var s4 := After(s3, Burst(WINDOW, n - 2));
    OneDrop(s4, Entry(1, n, WINDOW), 0, d);
    PossibleSplit(Initial, [Acquire(0, 0), Acquire(0, WINDOW)], [Drop(0)], d);
    PossibleSplit(Initial, [Acquire(0, 0), Acquire(0, WINDOW)] + [Drop(0)], Burst(WINDOW, n - 2), d);
    PossibleSplit(Initial, [Acquire(0, 0), Acquire(0, WINDOW)] + [Drop(0)] + Burst(WINDOW, n - 2), [Drop(0)], d);
    assert [] + [Attempt(0, 0)] == [Attempt(0, 0)];
  }

  lemma StartIsAbsent()
    ensures Absent(Initial, 0)
  {
  }

  lemma OneDrop(st: State, own: Entry, m: nat, d: nat)
    requires At(st, own, m) && own.active > 0
    ensures Possible(st, [Drop(0)], d) && After(st, [Drop(0)]) == Step(st, Drop(0))
    ensures var st' := Step(st, Drop(0));
            At(st', own.(active := own.active - 1), m) && st'.log == st.log && st'.clock == st.clock
  {
    Leaves(st, own, m);
    hide Step, At;
    assert [Drop(0)][1..] == [];
  }

  /** A window that is over is retired at `late`, and the next one opened `d` earlier and filled. */
  lemma NextRuns(st: State, n: nat, m: nat, late: int, d: nat, now: int, k: nat)
    requires At(st, Entry(0, n, late), m) && m < MAX_ATTEMPTS && st.clock <= late && k < MAX_ATTEMPTS
    requires late - d <= now <= late && d < WINDOW
    ensures Possible(st, Next(late, d, now, k), d)
    ensures var st' := After(st, Next(late, d, now, k));
            At(st', Entry(0, k + 1, late - d + WINDOW), m + 1) && st'.clock == late
            && st'.log == st.log + NextLog(late, d, now, k)
  {
    hide Step, At, Absent, Burst, Repeated, Possible, After;
    Purges(st, Entry(0, n, late), late, m);
    var s1 := Step(Step(st, Acquire(1, late)), Drop(1));
    TwoEvents(st, Acquire(1, late), Drop(1), d);
    Opens(s1, late - d, m + 1);
    var s2 := Step(s1, Acquire(0, late - d));
    Leaves(s2, Entry(1, 1, late - d + WINDOW), m + 1);
    var s3 := Step(s2, Drop(0));
    TwoEvents(s1, Acquire(0, late - d), Drop(0), d);
    BurstRuns(s3, Entry(0, 1, late - d + WINDOW), now, k, m + 1, d);
    PossibleSplit(s1, [Acquire(0, late - d), Drop(0)], Burst(now, k), d);
    PossibleSplit(st, [Acquire(1, late), Drop(1)], [Acquire(0, late - d), Drop(0)] + Burst(now, k), d);
    LogGrows(st.log, [Attempt(1, late)], [Attempt(0, late - d)], Repeated(Attempt(0, now), k));
  }

  lemma LogGrows(log: seq<Attempt>, a: seq<Attempt>, b: seq<Attempt>, c: seq<Attempt>)
    ensures log + a + b + c == log + (a + b + c)
  {
  }

  lemma LateRuns(n: nat, d: nat)
    requires n == MAX_ATTEMPTS && 2 * d <= WINDOW
    ensures Possible(Initial, First(n) + Second(n, d) + Third(d), d)
    ensures After(Initial, First(n) + Second(n, d) + Third(d)).log == LateLog(n, d)
  {
    hide Step, At, First, FirstLog, NextLog, Possible, After, Next;
    FirstRuns(n, d);
    var s1 := After(Initial, First(n));
    NextRuns(s1, n, 0, WINDOW, d, WINDOW, n - 1);
    PossibleSplit(Initial, First(n), Second(n, d), d);
    var s2 := After(s1, Second(n, d));
    NextRuns(s2, n, 1, 2 * WINDOW - d, d, 2 * WINDOW - 2 * d, 2);
    PossibleSplit(Initial, First(n) + Second(n, d), Third(d), d);
  }

  lemma {:induction false} RepeatedSpan(a: Attempt, k: nat, t: int, length: nat)
    requires t <= a.time < t + length
    ensures Span(Repeated(a, k), a.source, t, length) == k
  {
    if k > 0 {
      RepeatedSpan(a, k - 1, t, length);
      CountsSplit([a], Repeated(a, k - 1), a.source, t, length);
      CountsOne(a, a.source, t, length);
    }
  }

  /** One window's share of the interval: whatever precedes its repeated attempts only adds. */
  lemma WindowSpan(a: Attempt, b: Attempt, c: Attempt, k: nat, t: int, length: nat)
    requires t <= c.time < t + length
    ensures Span([a] + [b] + Repeated(c, k), c.source, t, length)
            >= k + if b.source == c.source && t <= b.time < t + length then 1 else 0
  {
    RepeatedSpan(c, k, t, length);
    CountsOne(b, c.source, t, length);
    CountsSplit([a], [b], c.source, t, length);
    CountsSplit([a] + [b], Repeated(c, k), c.source, t, length);
  }

  lemma LateSpan(n: nat, d: nat, length: nat)
    requires n >= 2 && 2 * d <= WINDOW < length + 2 * d
    ensures Span(LateLog(n, d), 0, WINDOW, length) >= 2 * n + 1
  {
    hide Span, Repeated;
    var late := 2 * WINDOW - 2 * d;
    var a, b, c := FirstLog(n), NextLog(WINDOW, d, WINDOW, n - 1), NextLog(2 * WINDOW - d, d, late, 2);
    WindowSpan(Attempt(0, 0), Attempt(0, WINDOW), Attempt(0, WINDOW), n - 2, WINDOW, length);
    WindowSpan(Attempt(1, WINDOW), Attempt(0, WINDOW - d), Attempt(0, WINDOW), n - 1, WINDOW, length);
    WindowSpan(Attempt(1, 2 * WINDOW - d), Attempt(0, late), Attempt(0, late), 2, WINDOW, length);
    CountsSplit(a, b, 0, WINDOW, length);
    CountsSplit(a + b, c, 0, WINDOW, length);
  }

  /** Intervals longer than `WINDOW - 2 * d` can admit more than 512, with no instant later than `d`. */
  lemma LateInstantsBreakTheBound(d: nat, length: nat)
    requires length >= 1 && length + 2 * d > WINDOW
    ensures exists states: seq<State>, events: seq<Event> ::
              IsRun(states, events) && Lagging(states, events, d)
              && Span(states[|events|].log, 0, WINDOW, length) > 512
  {
    hide First, Second, Third, LateLog, Possible, After, Span, Step;
    var n, least := MAX_ATTEMPTS, if length > WINDOW then 0 else (WINDOW - length) / 2 + 1;
    var events := First(n) + Second(n, least) + Third(least);
    LateRuns(n, least);
    LateSpan(n, least, length);
    TraceRuns(Initial, events, least);
    var states := Trace(Initial, events);
    assert IsRun(states, events);
    assert Lagging(states, events, d) by {
      forall j | 0 <= j < |events| ensures Prompt(states[j], events[j], d) {
        assert Prompt(states[j], events[j], least);
      }
    }
  }

  // ---- The exact bound ----

  /** Every run whose instants lag by at most `d` admits at most 512 per source in every such interval. */
  ghost predicate AlwaysBounded(d: nat, length: nat)
  {
    forall states: seq<State>, events: seq<Event>, i: nat, s: Source, t: int ::
      IsRun(states, events) && Lagging(states, events, d) && i < |states| ==> Span(states[i].log, s, t, length) <= 512
  }

  lemma BrokenIsNotBounded(d: nat, length: nat)
    requires length >= 1 && length + 2 * d > WINDOW
    ensures !AlwaysBounded(d, length)
  {
    hide Span, Lagging;
    LateInstantsBreakTheBound(d, length);
    var states: seq<State>, events: seq<Event> :|
      IsRun(states, events) && Lagging(states, events, d) && Span(states[|events|].log, 0, WINDOW, length) > 512;
  }

  lemma {:induction false} EmptySpan(log: seq<Attempt>, s: Source, t: int)
    ensures Span(log, s, t, 0) == 0
    decreases |log|
  {
    if log != [] {
      EmptySpan(log[..|log| - 1], s, t);
    }
  }

  /** 512 attempts per interval is exactly what intervals of at most `WINDOW - 2 * d` get. */
  lemma SpanBoundIsExact(d: nat, length: nat)
    ensures AlwaysBounded(d, length) <==> length == 0 || length + 2 * d <= WINDOW
  {
    hide IsRun, Lagging, Span;
    if length == 0 {
      forall log: seq<Attempt>, s: Source, t: int ensures Span(log, s, t, 0) == 0 {
        EmptySpan(log, s, t);
      }
    } else if length + 2 * d > WINDOW {
      BrokenIsNotBounded(d, length);
    } else {
      forall states: seq<State>, events: seq<Event>, i: nat, s: Source, t: int
        | IsRun(states, events) && Lagging(states, events, d) && i < |states|
        ensures Span(states[i].log, s, t, length) <= 512
      {
        SpanIsBounded(states, events, i, s, t, d, length);
      }
    }
  }

  /** The minute's bound holds of every run exactly when no instant lags at all. */
  lemma MinuteBoundIsExact(d: nat)
    ensures AlwaysBounded(d, WINDOW) <==> d == 0
  {
    SpanBoundIsExact(d, WINDOW);
  }
}
