/** What the records of a control connection deliver, independently of who reads them. */
module Delivery {
  import opened Common
  import opened Tmux

  const MAX_CHUNK: nat := 16_384

  datatype Event = OutputEvent(pane: Bytes, data: Bytes) | RefreshEvent | ExitEvent

  /** The records end inside a guarded response. */
  predicate Guarded(lines: seq<Bytes>)
  {
    lines != [] &&
    var last := lines[|lines| - 1];
    if Guarded(lines[..|lines| - 1]) then !(END <= last) && !(ERROR <= last) else BEGIN <= last
  }

  /** The records of guarded responses, in order. */
  function Payload(lines: seq<Bytes>): seq<Bytes>
  {
    if lines == [] then []
    else
      var front, last := lines[..|lines| - 1], lines[|lines| - 1];
      Payload(front) + if Guarded(front) && !(END <= last) && !(ERROR <= last) then [StripNewline(last)] else []
  }

  function OutputFor(note: Note, pane: Bytes): Bytes
  {
    if note.Output? && note.pane == pane then note.data else []
  }

  /** What a record announces after the records `front`: nothing inside a guarded response. */
  function Announced(front: seq<Bytes>, last: Bytes): Note
  {
    if Guarded(front) || BEGIN <= last then Quiet else Parse(last)
  }

  /** The decoded output announced for a pane outside guarded responses. */
  function Delivered(lines: seq<Bytes>, pane: Bytes): Bytes
  {
    if lines == [] then []
    else
      var front, last := lines[..|lines| - 1], lines[|lines| - 1];
      Delivered(front, pane) + OutputFor(Announced(front, last), pane)
  }

  function Chunks(data: Bytes): (chunks: seq<Bytes>)
    ensures forall i :: 0 <= i < |chunks| ==> 1 <= |chunks[i]| <= MAX_CHUNK
  {
    if data == [] then []
    else if |data| <= MAX_CHUNK then [data]
    else [data[..MAX_CHUNK]] + Chunks(data[MAX_CHUNK..])
  }

  function Outputs(pane: Bytes, chunks: seq<Bytes>): (events: seq<Event>)
    ensures |events| == |chunks| && forall i :: 0 <= i < |chunks| ==> events[i] == OutputEvent(pane, chunks[i])
  {
    seq(|chunks|, i requires 0 <= i < |chunks| => OutputEvent(pane, chunks[i]))
  }

  function EventsOf(note: Note): seq<Event>
  {
    match note
    case Output(pane, data) => Outputs(pane, Chunks(data))
    case Refresh => [RefreshEvent]
    case Exit => [ExitEvent]
    case Quiet => []
    case Unknown => []
  }

  /** The events the records outside guarded responses give rise to. */
  function Arrived(lines: seq<Bytes>): seq<Event>
  {
    if lines == [] then []
    else
      var front, last := lines[..|lines| - 1], lines[|lines| - 1];
      Arrived(front) + EventsOf(Announced(front, last))
  }

  function Carried(e: Event, pane: Bytes): Bytes
  {
    if e.OutputEvent? && e.pane == pane then e.data else []
  }

  /** The output queued for a pane. */
  function Queued(events: seq<Event>, pane: Bytes): Bytes
  {
    if events == [] then [] else Queued(events[..|events| - 1], pane) + Carried(events[|events| - 1], pane)
  }

  function Weight(e: Event): nat
  {
    if e.OutputEvent? then |e.data| else 0
  }

  function Size(events: seq<Event>): nat
  {
    if events == [] then 0 else Size(events[..|events| - 1]) + Weight(events[|events| - 1])
  }

  /** Queued output comes in chunks. */
  predicate Sized(events: seq<Event>)
  {
    forall i :: 0 <= i < |events| && events[i].OutputEvent? ==> 1 <= |events[i].data| <= MAX_CHUNK
  }

  function Kept(events: seq<Event>, pane: Bytes): seq<Event>
  {
    if events == [] then []
    else
      var last := events[|events| - 1];
      Kept(events[..|events| - 1], pane) + if last.OutputEvent? && last.pane == pane then [] else [last]
  }

  predicate HasOutput(events: seq<Event>, pane: Bytes)
  {
    exists i :: 0 <= i < |events| && events[i].OutputEvent? && events[i].pane == pane
  }

  // ---- Concatenation ----

  lemma QueuedSplit(a: seq<Event>, b: seq<Event>, pane: Bytes)
    ensures Queued(a + b, pane) == Queued(a, pane) + Queued(b, pane) && Size(a + b) == Size(a) + Size(b)
  {
    OutputSplit(a, b, pane);
    SizeSplit(a, b);
    hide Queued, Size;
  }

  lemma {:induction false} OutputSplit(a: seq<Event>, b: seq<Event>, pane: Bytes)
    ensures Queued(a + b, pane) == Queued(a, pane) + Queued(b, pane)
    decreases |b|
  {
    hide Carried;
    if b == [] {
      assert a + b == a;
    } else {
      assert (a + b)[..|a + b| - 1] == a + b[..|b| - 1];
      OutputSplit(a, b[..|b| - 1], pane);
    }
  }

  lemma {:induction false} SizeSplit(a: seq<Event>, b: seq<Event>)
    ensures Size(a + b) == Size(a) + Size(b)
    decreases |b|
  {
    if b == [] {
      assert a + b == a;
    } else {
      assert (a + b)[..|a + b| - 1] == a + b[..|b| - 1] && (a + b)[|a + b| - 1] == b[|b| - 1];
      SizeSplit(a, b[..|b| - 1]);
    }
  }

  lemma {:induction false} GuardedSplit(a: seq<Bytes>, b: seq<Bytes>)
    requires !Guarded(a)
    ensures Guarded(a + b) == Guarded(b)
    decreases |b|
  {
    if b == [] {
      assert a + b == a;
    } else {
      assert (a + b)[..|a + b| - 1] == a + b[..|b| - 1];
      GuardedSplit(a, b[..|b| - 1]);
    }
  }

  lemma {:induction false} DeliveredSplit(a: seq<Bytes>, b: seq<Bytes>, pane: Bytes)
    requires !Guarded(a)
    ensures Delivered(a + b, pane) == Delivered(a, pane) + Delivered(b, pane)
    decreases |b|
  {
    hide Parse, Guarded, OutputFor;
    if b == [] {
      assert a + b == a;
    } else {
      assert (a + b)[..|a + b| - 1] == a + b[..|b| - 1];
      GuardedSplit(a, b[..|b| - 1]);
      DeliveredSplit(a, b[..|b| - 1], pane);
    }
  }

  lemma {:induction false} ArrivedSplit(a: seq<Bytes>, b: seq<Bytes>)
    requires !Guarded(a)
    ensures Arrived(a + b) == Arrived(a) + Arrived(b)
    decreases |b|
  {
    hide Parse, Guarded, EventsOf;
    if b == [] {
      assert a + b == a;
    } else {
      assert (a + b)[..|a + b| - 1] == a + b[..|b| - 1];
      GuardedSplit(a, b[..|b| - 1]);
      ArrivedSplit(a, b[..|b| - 1]);
    }
  }

  // ---- Chunking ----

  lemma QueuedOne(e: Event, reader: Bytes)
    ensures Queued([e], reader) == (if e.OutputEvent? && e.pane == reader then e.data else []) && Size([e]) == Weight(e)
  {
    assert [e][..0] == [];
  }

  lemma QueuedFirst(pane: Bytes, first: Bytes, rest: seq<Bytes>, reader: Bytes)
    ensures Queued(Outputs(pane, [first] + rest), reader)
            == (if reader == pane then first else []) + Queued(Outputs(pane, rest), reader)
    ensures Size(Outputs(pane, [first] + rest)) == |first| + Size(Outputs(pane, rest))
  {
    var one := [OutputEvent(pane, first)];
    QueuedOne(one[0], reader);
    assert Outputs(pane, [first] + rest) == one + Outputs(pane, rest);
    QueuedSplit(one, Outputs(pane, rest), reader);
  }

  /** Chunking keeps every byte, in order and under its own pane only. */
  lemma {:induction false} ChunksKeepBytes(data: Bytes, pane: Bytes, reader: Bytes)
    ensures Queued(Outputs(pane, Chunks(data)), reader) == if reader == pane then data else []
    ensures Size(Outputs(pane, Chunks(data))) == |data|
    decreases |data|
  {
    if |data| > MAX_CHUNK {
      ChunksKeepBytes(data[MAX_CHUNK..], pane, reader);
      QueuedFirst(pane, data[..MAX_CHUNK], Chunks(data[MAX_CHUNK..]), reader);
      assert data == data[..MAX_CHUNK] + data[MAX_CHUNK..];
    } else if data != [] {
      QueuedFirst(pane, data, [], reader);
      assert [data] + [] == [data];
      assert Outputs(pane, []) == [];
    }
  }

  /** Queueing the events of a note delivers its output. */
  lemma EventsDeliver(note: Note, pane: Bytes)
    ensures Queued(EventsOf(note), pane) == OutputFor(note, pane)
  {
    if note.Output? {
      ChunksKeepBytes(note.data, note.pane, pane);
    } else if note.Refresh? || note.Exit? {
      assert EventsOf(note)[..0] == [];
    }
  }

  /** What is queued for a pane is exactly what the records deliver for it. */
  lemma {:induction false} ArrivedDelivers(lines: seq<Bytes>, pane: Bytes)
    ensures Queued(Arrived(lines), pane) == Delivered(lines, pane)
    decreases |lines|
  {
    hide Announced, EventsOf, OutputFor;
    if lines != [] {
      var front, last := lines[..|lines| - 1], lines[|lines| - 1];
      ArrivedDelivers(front, pane);
      EventsDeliver(Announced(front, last), pane);
      QueuedSplit(Arrived(front), EventsOf(Announced(front, last)), pane);
    }
  }

  // ---- Discarding ----

  /** Discarding one pane's output leaves every other pane's output and every other event. */
  lemma KeptKeeps(events: seq<Event>, pane: Bytes, reader: Bytes)
    ensures Queued(Kept(events, pane), reader) == if reader == pane then [] else Queued(events, reader)
    ensures |Kept(events, pane)| <= |events| && Size(Kept(events, pane)) <= Size(events)
    ensures RefreshEvent in Kept(events, pane) <==> RefreshEvent in events
    ensures ExitEvent in Kept(events, pane) <==> ExitEvent in events
    ensures Sized(events) ==> Sized(Kept(events, pane))
  {
    KeptDelivers(events, pane, reader);
    KeptSize(events, pane);
    KeptIsSmaller(events, pane);
    hide Kept, Queued, Size, Sized;
  }

  lemma {:induction false} KeptDelivers(events: seq<Event>, pane: Bytes, reader: Bytes)
    ensures Queued(Kept(events, pane), reader) == if reader == pane then [] else Queued(events, reader)
    decreases |events|
  {
    if events != [] {
      var front, last := events[..|events| - 1], events[|events| - 1];
      assert events == front + [last];
      KeptDelivers(front, pane, reader);
      if !(last.OutputEvent? && last.pane == pane) {
        QueuedOne(last, reader);
        QueuedSplit(Kept(front, pane), [last], reader);
      } else {
        assert Kept(events, pane) == Kept(front, pane);
      }
    }
  }

  lemma {:induction false} KeptSize(events: seq<Event>, pane: Bytes)
    ensures Size(Kept(events, pane)) <= Size(events)
    decreases |events|
  {
    if events != [] {
      var front, last := events[..|events| - 1], events[|events| - 1];
      KeptSize(front, pane);
      SizeSplit(Kept(front, pane), [last]);
      assert Size([last]) == Weight(last) by { assert [last][..0] == []; }
      var kept := Kept(events, pane);
      assert Size(events) == Size(front) + Weight(last);
      assert kept == Kept(front, pane) + [last] || kept == Kept(front, pane);
      hide Kept, Size;
    }
  }

  lemma {:induction false} KeptIsSmaller(events: seq<Event>, pane: Bytes)
    ensures |Kept(events, pane)| <= |events|
    ensures RefreshEvent in Kept(events, pane) <==> RefreshEvent in events
    ensures ExitEvent in Kept(events, pane) <==> ExitEvent in events
    ensures Sized(events) ==> Sized(Kept(events, pane))
    decreases |events|
  {
    if events != [] {
      var front, last := events[..|events| - 1], events[|events| - 1];
      assert events == front + [last];
      KeptIsSmaller(front, pane);
    }
  }

  lemma {:induction false} NothingQueued(events: seq<Event>, pane: Bytes)
    requires !HasOutput(events, pane)
    ensures Queued(events, pane) == []
    decreases |events|
  {
    if events != [] {
      var front, last := events[..|events| - 1], events[|events| - 1];
      assert last == events[|events| - 1];
      assert forall i :: 0 <= i < |front| ==> front[i] == events[i];
      NothingQueued(front, pane);
    }
  }

  // ---- Cutover ----

  /** Reading the records from `p` to `q` queued exactly what they announce, ending outside a response. */
  predicate Advanced(stream: seq<Bytes>, p: nat, q: nat, events: seq<Event>, events': seq<Event>)
  {
    p <= q <= |stream| && !Guarded(stream[p..q]) && events' == events + Arrived(stream[p..q])
  }

  /** The queue holds exactly the pane's output delivered since record `cut`. */
  predicate Live(stream: seq<Bytes>, cut: nat, pos: nat, events: seq<Event>, pane: Bytes)
  {
    cut <= pos <= |stream| && !Guarded(stream[cut..pos]) && Queued(events, pane) == Delivered(stream[cut..pos], pane)
  }

  lemma AdvancedTwice(stream: seq<Bytes>, p: nat, q: nat, r: nat, e1: seq<Event>, e2: seq<Event>, e3: seq<Event>)
    requires Advanced(stream, p, q, e1, e2) && Advanced(stream, q, r, e2, e3)
    ensures Advanced(stream, p, r, e1, e3)
  {
    hide Guarded, Arrived;
    ArrivedSplit(stream[p..q], stream[q..r]);
    GuardedSplit(stream[p..q], stream[q..r]);
    assert stream[p..r] == stream[p..q] + stream[q..r];
  }

  /** No interleaving of notifications loses or repeats output of a pane already cut over. */
  lemma LiveAdvances(stream: seq<Bytes>, cut: nat, p: nat, q: nat, events: seq<Event>, events': seq<Event>, pane: Bytes)
    requires Live(stream, cut, p, events, pane) && Advanced(stream, p, q, events, events')
    ensures Live(stream, cut, q, events', pane)
  {
    hide Guarded, Arrived, Queued, Delivered;
    assert stream[cut..q] == stream[cut..p] + stream[p..q];
    GuardedSplit(stream[cut..p], stream[p..q]);
    DeliveredSplit(stream[cut..p], stream[p..q], pane);
    ArrivedDelivers(stream[p..q], pane);
    QueuedSplit(events, Arrived(stream[p..q]), pane);
  }
}
