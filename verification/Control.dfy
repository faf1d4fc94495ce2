/** The control adapter: guarded responses, the bounded event queue, and hydration. */
module Control {
  import opened Common
  import opened Tmux
  import opened Snapshot
  import opened Delivery

  const MAX_EVENTS: nat := 256
  const MAX_OUTPUT: nat := 512 * 1024
  const MAX_RECORDS: nat := 16_384
  const MAX_WIRE: nat := 8 * 1024 * 1024
  const MAX_PROJECTION: nat := 1_048_576
  const MAX_METADATA: nat := 1024
  const ATTEMPTS: nat := 3

  datatype Unit = Unit

  datatype PaneSnapshot = PaneSnapshot(pane: Bytes, content: Bytes)

  datatype Projection = Projection(windows: seq<WindowSummary>, window: Window, panes: seq<Pane>,
    snapshots: seq<PaneSnapshot>)

  function SaturatingSub(a: nat, b: nat): nat
  {
    if b <= a then a - b else 0
  }

  /** Whether output of these bytes finds room, `queued` bytes and `count` events being queued. */
  predicate HasRoom(queued: nat, count: nat, data: Bytes)
  {
    data == [] || (queued + |data| <= MAX_OUTPUT && count + |Chunks(data)| <= MAX_EVENTS)
  }

  /** Whether a notification is accepted by a queue in that state. */
  predicate Accepts(queued: nat, count: nat, note: Note)
  {
    match note
    case Output(_, data) => HasRoom(queued, count, data)
    case Refresh => count < MAX_EVENTS
    case Exit => count < MAX_EVENTS
    case Quiet => true
    case Unknown => false
  }

  function Length(rows: seq<Bytes>): nat
  {
    if rows == [] then 0 else Length(rows[..|rows| - 1]) + |rows[|rows| - 1]|
  }

  /** What one response may cost, however it is framed. */
  datatype Budget = Budget(records: nat, bytes: nat)

  function Charged(b: Budget, line: Bytes): Budget
  {
    Budget(b.records + 1, b.bytes + |line|)
  }

  predicate Exceeded(b: Budget)
  {
    b.records > MAX_RECORDS || b.bytes > MAX_WIRE
  }

  /** Notifications up to record `b`, then one response opened there and closed by the last record. */
  predicate Guard(segment: seq<Bytes>, b: nat, closing: Bytes)
  {
    b < |segment| - 1 && ParseMarker(segment[b], BEGIN).Marker?
    && ParseMarker(segment[|segment| - 1], closing) == ParseMarker(segment[b], BEGIN)
    && forall i :: 0 <= i < b ==> !(BEGIN <= segment[i])
  }

  /** Where a pane was cut over: its capture response is `stream[start..cut]`, its metadata `stream[cut..end]`. */
  datatype Cut = Cut(start: nat, cut: nat, end: nat)

  /** The pane's terminal state was observed after its capture with none of its output in between. */
  ghost predicate Observed(stream: seq<Bytes>, c: Cut, window: Window, pane: Pane)
  {
    c.start <= c.cut <= c.end <= |stream| && Delivered(stream[c.cut..c.end], pane.id) == []
    && var rows := Payload(stream[c.cut..c.end]);
    |rows| == 1 && ParsePaneRow(rows[0], window).Ok? && ParsePaneRow(rows[0], window).value.screen == pane.screen
  }

  /** The pane's snapshot is its capture, and the queue continues exactly where the capture ends. */
  ghost predicate CutOver(stream: seq<Bytes>, c: Cut, pos: nat, events: seq<Event>, window: Window, pane: Pane,
                          snapshot: PaneSnapshot)
  {
    PaneOk(pane) && snapshot.pane == pane.id && Observed(stream, c, window, pane)
    && Live(stream, c.cut, pos, events, pane.id)
    && snapshot.content == Render(Payload(stream[c.start..c.cut]), pane.screen)
  }

  /** Only the labels differ. */
  predicate Relabelled(a: Pane, b: Pane)
  {
    a == b.(title := a.title, command := a.command)
  }

  /** Only the terminal state differs. */
  predicate Recaptured(a: Pane, b: Pane)
  {
    a == b.(screen := a.screen)
  }

  /** The rows observe the same panes again, each with the same structure. */
  predicate Unchanged(rows: seq<Bytes>, window: Window, panes: seq<Pane>)
  {
    AllParse(rows, window) && |rows| == |panes|
    && forall i :: 0 <= i < |panes| ==> SameStructure(Panes(rows, window)[i], panes[i])
  }

  lemma NamelessWindow(rows: seq<Bytes>, session: Bytes, created: int)
    ensures var w := ParseWindow(rows, session, created); w.Ok? ==> w.value.name == []
  {
  }

  /** A projection as the Browser is entitled to receive it. */
  predicate ProjectionOk(p: Projection)
  {
    WindowsOk(p.windows) && WindowOk(p.window) && ActiveWindows(p.windows)[0].id == p.window.id
    && PanesOk(p.panes) && (forall i :: 0 <= i < |p.panes| ==> Inside(p.panes[i], p.window) && LabelsOk(p.panes[i]))
    && |p.snapshots| == |p.panes| && TotalSnapshot(p.snapshots) <= MAX_PROJECTION
    && forall i :: 0 <= i < |p.panes| ==>
         p.snapshots[i].pane == p.panes[i].id && |p.snapshots[i].content| <= MAX_SNAPSHOT
  }

  /** The observed panes, relabelled and then recaptured, make a well-formed projection. */
  lemma ProjectionFits(p: Projection, observed: seq<Pane>, labelled: seq<Pane>)
    requires WindowsOk(p.windows) && WindowOk(p.window) && ActiveWindows(p.windows)[0].id == p.window.id
    requires PanesOk(observed) && |labelled| == |observed| == |p.panes| == |p.snapshots|
    requires forall i :: 0 <= i < |observed| ==> Inside(observed[i], p.window)
    requires forall i :: 0 <= i < |observed| ==> LabelsOk(labelled[i]) && Relabelled(labelled[i], observed[i])
    requires forall i :: 0 <= i < |observed| ==> Recaptured(p.panes[i], labelled[i]) && PaneOk(p.panes[i])
    requires forall i :: 0 <= i < |observed| ==>
               p.snapshots[i].pane == p.panes[i].id && |p.snapshots[i].content| <= MAX_SNAPSHOT
    requires TotalSnapshot(p.snapshots) <= MAX_PROJECTION
    ensures ProjectionOk(p)
  {
    hide ActiveWindows, WindowsOk, WindowOk, ActiveCount, Cells, Distinct, TextOk, TotalSnapshot, IsPaneId;
    StructureCounts(p.panes, observed);
  }

  lemma LabelledPanes(observed: seq<Pane>, labelled: seq<Pane>)
    requires PanesOk(observed) && |labelled| == |observed|
    requires forall i :: 0 <= i < |observed| ==> Relabelled(labelled[i], observed[i])
    ensures Distinct(Ids(labelled)) && forall i :: 0 <= i < |labelled| ==> PaneOk(labelled[i])
  {
    hide ActiveCount, Cells, IsPaneId;
    StructureCounts(labelled, observed);
  }

  class ControlAdapter {
    /** Every record the connection ever delivers; reads may also fail at any point. */
    const stream: seq<Bytes>
    var pos: nat
    var events: seq<Event>
    var queued: nat

    /** The counter covers what is queued, so subtracting an event's size never saturates. */
    ghost predicate Sound()
      reads this
    {
      pos <= |stream| && |events| <= MAX_EVENTS && Size(events) <= queued && Sized(events)
    }

    ghost function Drift(): nat
      requires Sound()
      reads this
    {
      queued - Size(events)
    }

    ghost predicate Exact()
      reads this
    {
      Sound() && Drift() == 0 && queued <= MAX_OUTPUT
    }

    constructor (records: seq<Bytes>)
      ensures Exact() && stream == records && pos == 0 && events == []
    {
      stream := records;
      pos, events, queued := 0, [], 0;
    }

    /** The next record; the transport, the lease or the response deadline may fail instead. */
    method NextLine() returns (r: Result<Bytes>)
      requires Sound()
      modifies this`pos
      ensures Sound() && (r.Ok? ==> old(pos) < |stream| && pos == old(pos) + 1 && r.value == stream[old(pos)])
      ensures r.Err? ==> pos == old(pos) && (r.error == Ssh || r.error == Deadline)
    {
      if pos == |stream| {
        return Err(Ssh);
      }
      if * {
        return Err(Ssh);
      } else if * {
        return Err(Deadline);
      }
      pos := pos + 1;
      return Ok(stream[pos - 1]);
    }

    method QueueEvent(e: Event) returns (ok: bool)
      modifies this`events
      ensures ok == (|old(events)| < MAX_EVENTS)
      ensures events == if ok then old(events) + [e] else old(events)
    {
      if |events| >= MAX_EVENTS {
        return false;
      }
      events := events + [e];
      return true;
    }

    /** Every chunk is queued, or one is refused and the counter left ahead of the queue by its size. */
    method QueueChunks(pane: Bytes, data: Bytes) returns (ok: bool)
      requires Sound()
      modifies this`events, this`queued
      ensures Sound() && old(events) <= events
      ensures ok <==> HasRoom(old(queued), |old(events)|, data)
      ensures ok ==> events == old(events) + Outputs(pane, Chunks(data)) && Drift() == old(Drift())
      ensures !ok ==> old(Drift()) < Drift() <= old(Drift()) + MAX_CHUNK
      ensures ok && (data != [] || old(queued) <= MAX_OUTPUT) ==> queued <= MAX_OUTPUT
    {
      hide Size, Chunks, Sized;
      var chunks := Chunks(data);
      ghost var all := Outputs(pane, chunks);
      ChunksKeepBytes(data, pane, pane);
      NoChunks(data);
      SizeEmpty();
      for i := 0 to |chunks|
        invariant events == old(events) + all[..i] && |events| <= MAX_EVENTS && Sized(events)
        invariant Size(events) <= queued && queued - Size(events) == old(Drift())
        invariant queued == old(queued) + Size(all[..i])
        invariant i > 0 || old(queued) <= MAX_OUTPUT ==> queued <= MAX_OUTPUT
      {
        var event := OutputEvent(pane, chunks[i]);
        assert all[..i + 1] == all[..i] + [event];
        SizeSnoc(all[..i], event);
        SizePrefix(all, i + 1);
        SizedSnoc(events, event);
        queued := queued + |chunks[i]|;
        if queued > MAX_OUTPUT {
          return false;
        }
        var queuedEvent := QueueEvent(event);
        if !queuedEvent {
          return false;
        }
        SizeSnoc(old(events) + all[..i], event);
      }
      assert all[..|chunks|] == all;
      return true;
    }

    /**
      Output is queued whole exactly when it is well-formed and finds room; the counter moves away
      from the queue exactly when well-formed output does not.
     */
    method QueueOutput(pane: Bytes, encoded: Bytes) returns (r: Result<Unit>)
      requires Sound()
      modifies this`events, this`queued
      ensures Sound() && old(events) <= events
      ensures r.Ok? <==> Accepts(old(queued), |old(events)|, OutputNote(pane, encoded))
      ensures r.Err? ==> r.error == Protocol
      ensures r.Ok? ==> events == old(events) + EventsOf(OutputNote(pane, encoded))
      ensures var note := OutputNote(pane, encoded);
              Drift() == old(Drift()) <==> Accepts(old(queued), |old(events)|, note) || note.Unknown?
      ensures old(Drift()) <= Drift() <= old(Drift()) + MAX_CHUNK
      ensures old(Exact()) && r.Ok? ==> Exact()
    {
      hide Size, Unescape, IsPaneId, Chunks, Sized;
      if !IsPaneId(pane) {
        return Err(Protocol);
      }
      var decoded := DecodeEscaped(encoded);
      if decoded.Err? {
        return Err(Protocol);
      }
      var ok := QueueChunks(pane, decoded.value);
      return if ok then Ok(Unit) else Err(Protocol);
    }

    method IngestNotification(record: Bytes) returns (r: Result<Unit>)
      requires Sound()
      modifies this`events, this`queued
      ensures Sound() && old(events) <= events
      ensures r.Ok? <==> Accepts(old(queued), |old(events)|, Parse(record))
      ensures r.Err? ==> r.error == Protocol
      ensures r.Ok? ==> events == old(events) + EventsOf(Parse(record))
      ensures Drift() == old(Drift()) <==> Accepts(old(queued), |old(events)|, Parse(record)) || !Parse(record).Output?
      ensures old(Drift()) <= Drift() <= old(Drift()) + MAX_CHUNK
      ensures old(Exact()) && r.Ok? ==> Exact()
    {
      hide Size, IsRefresh, IsIgnorable, EventsOf, HasRoom;
      var line := StripNewline(record);
      if OUTPUT <= line || EXTENDED <= line {
        var parts := OutputParts(line);
        if parts.None? {
          return Err(Protocol);
        }
        r := QueueOutput(parts.value.0, parts.value.1);
        return;
      }
      var note := Parse(record);
      if note.Unknown? {
        return Err(Protocol);
      }
      QuietEvents(note);
      if note.Quiet? {
        return Ok(Unit);
      }
      var e := if note.Exit? then ExitEvent else RefreshEvent;
      var ok := QueueEvent(e);
      if !ok {
        return Err(Protocol);
      }
      SizeSnoc(old(events), e);
      return Ok(Unit);
    }

    /** One guarded response, and every notification before it queued. */
    method ReadResponse(max: nat) returns (r: Result<seq<Bytes>>)
      requires Sound()
      modifies this`pos, this`events, this`queued
      ensures Sound() && old(pos) <= pos <= old(pos) + MAX_RECORDS + 1 && old(events) <= events
      ensures r.Err? ==> r.error != Changed
      ensures r.Ok? ==> Advanced(stream, old(pos), pos, old(events), events) && Drift() == old(Drift())
      ensures r.Ok? ==> r.value == Payload(stream[old(pos)..pos]) && Length(r.value) <= max
      ensures r.Ok? ==> pos <= old(pos) + MAX_RECORDS && Length(stream[old(pos)..pos]) <= MAX_WIRE
      ensures r.Ok? ==> exists b :: Guard(stream[old(pos)..pos], b, END)
      ensures r == Err(Target) ==> exists b :: Guard(stream[old(pos)..pos], b, ERROR)
      ensures old(Exact()) && r.Ok? ==> Exact()
    {
      hide Size, Parse, EventsOf, ParseMarker, Guarded, Payload, Arrived, Announced, Length, Guard;
      var marker: Option<Marker> := None;
      var size := 0;
      var budget := Budget(0, 0);
      var result: seq<Bytes> := [];
      ghost var start, guardAt := pos, pos;
      NothingRead();
      assert stream[start..pos] == [];
      while true
        invariant Sound() && start <= pos && pos - start == budget.records
        invariant budget.records <= MAX_RECORDS && budget.bytes <= MAX_WIRE
        invariant budget.bytes == Length(stream[start..pos])
        invariant events == old(events) + Arrived(stream[start..pos]) && Drift() == old(Drift())
        invariant old(Exact()) ==> Exact()
        invariant Guarded(stream[start..pos]) == marker.Some?
        invariant start <= guardAt <= pos && forall i :: start <= i < guardAt ==> !(BEGIN <= stream[i])
        invariant if marker.Some? then guardAt < pos && marker.value.Marker?
                  && ParseMarker(stream[guardAt], BEGIN) == marker.value
                  else guardAt == pos
        invariant result == Payload(stream[start..pos]) && size == Length(result) <= max
        decreases MAX_RECORDS - budget.records
      {
        var line := NextLine();
        if line.Err? {
          return Err(line.error);
        }
        ghost var front := stream[start..pos - 1];
        assert stream[start..pos] == front + [line.value];
        OneMore(front, line.value);
        budget := Charged(budget, line.value);
        if Exceeded(budget) {
          return Err(Protocol);
        }
        if marker.None? {
          var begin := ParseMarker(line.value, BEGIN);
          if begin.Malformed? {
            return Err(Protocol);
          }
          if begin.Marker? {
            marker := Some(begin);
          } else {
            var ingested := IngestNotification(line.value);
            if ingested.Err? {
              return Err(ingested.error);
            }
            guardAt := pos;
          }
          continue;
        }
        var end := ParseMarker(line.value, END);
        if end.Malformed? {
          return Err(Protocol);
        }
        if end.Marker? {
          if marker == Some(end) {
            GuardCloses(stream, start, pos, guardAt, END);
            return Ok(result);
          }
          return Err(Protocol);
        }
        var error := ParseMarker(line.value, ERROR);
        if error.Malformed? {
          return Err(Protocol);
        }
        if error.Marker? {
          if marker == Some(error) {
            GuardCloses(stream, start, pos, guardAt, ERROR);
            return Err(Target);
          }
          return Err(Protocol);
        }
        if BEGIN <= line.value {
          return Err(Protocol);
        }
        size := size + |StripNewline(line.value)|;
        if size > max {
          return Err(ProjectionTooLarge);
        }
        LengthSnoc(result, StripNewline(line.value));
        result := result + [StripNewline(line.value)];
      }
    }

    /** One record read while a frame is being written: it must be a notification. */
    method PumpEvent() returns (r: Result<Unit>)
      requires Sound()
      modifies this`pos, this`events, this`queued
      ensures Sound() && old(pos) <= pos <= old(pos) + 1
      ensures r.Ok? ==> pos == old(pos) + 1 && Moved()
    {
      hide Size, Parse, EventsOf, Guarded, Arrived, Payload, Length, Announced;
      var line := NextLine();
      if line.Err? {
        return Err(line.error);
      }
      assert stream[old(pos)..pos] == [] + [line.value];
      NothingRead();
      OneMore([], line.value);
      BeginIsUnknown(line.value);
      r := IngestNotification(line.value);
    }

    /** Sending a command may fail before its response is read. */
    method Command(max: nat) returns (r: Result<seq<Bytes>>)
      requires Sound()
      modifies this`pos, this`events, this`queued
      ensures Sound() && old(pos) <= pos && old(events) <= events
      ensures r.Err? ==> r.error != Changed
      ensures r.Ok? ==> Advanced(stream, old(pos), pos, old(events), events) && Drift() == old(Drift())
      ensures r.Ok? ==> r.value == Payload(stream[old(pos)..pos])
      ensures old(Exact()) && r.Ok? ==> Exact()
    {
      if * {
        return Err(Ssh);
      }
      r := ReadResponse(max);
    }

    method PopEvent() returns (e: Option<Event>)
      requires Sound()
      modifies this`events, this`queued
      ensures Sound() && Drift() == old(Drift())
      ensures old(events) == [] ==> e == None && events == []
      ensures old(events) != [] ==>
                e == Some(old(events)[0]) && events == old(events)[1..] && queued + Weight(e.value) == old(queued)
      ensures old(Exact()) ==> Exact()
    {
      if events == [] {
        return None;
      }
      e := Some(events[0]);
      SizeCons(events);
      if e.value.OutputEvent? {
        queued := SaturatingSub(queued, |e.value.data|);
      }
      events := events[1..];
    }

    method ClearEvents()
      requires pos <= |stream|
      modifies this`events, this`queued
      ensures Exact() && events == []
    {
      events, queued := [], 0;
    }

    method DiscardCapturedOutput(pane: Bytes)
      requires Sound()
      modifies this`events, this`queued
      ensures events == Kept(old(events), pane) && Sound() && Drift() == 0
      ensures old(Exact()) ==> Exact()
    {
      hide Size, Sized;
      SizeEmpty();
      var all, kept: seq<Event>, sum := events, [], 0;
      for i := 0 to |all|
        invariant kept == Kept(all[..i], pane) && sum == Size(kept)
      {
        assert all[..i + 1][..i] == all[..i];
        if !(all[i].OutputEvent? && all[i].pane == pane) {
          SizeSnoc(kept, all[i]);
          kept := kept + [all[i]];
          sum := sum + Weight(all[i]);
        } else {
          assert Kept(all[..i + 1], pane) == kept;
        }
      }
      assert all[..|all|] == all;
      KeptKeeps(all, pane, pane);
      events, queued := kept, sum;
    }

    /** Success means that the queue has been drained and announced no change. */
    method RequireStableCutover() returns (r: Result<Unit>)
      requires Sound()
      modifies this`events, this`queued
      ensures Sound() && Drift() == old(Drift())
      ensures r.Ok? <==> RefreshEvent !in old(events) && ExitEvent !in old(events)
      ensures r.Err? ==> (r.error == Target <==> ExitEvent in old(events)) && (r.error == Changed || r.error == Target)
      ensures r.Ok? ==> events == []
      ensures old(Exact()) ==> Exact()
    {
      var changed := false;
      ghost var done: nat := 0;
      while events != []
        invariant Sound() && Drift() == old(Drift()) && (old(Exact()) ==> Exact())
        invariant done <= |old(events)| && events == old(events)[done..]
        invariant ExitEvent !in old(events)[..done] && (changed <==> RefreshEvent in old(events)[..done])
        decreases |events|
      {
        var e := PopEvent();
        assert old(events)[..done + 1] == old(events)[..done] + [e.value];
        if e.value.ExitEvent? {
          assert old(events)[done] == ExitEvent;
          return Err(Target);
        }
        if e.value.RefreshEvent? {
          changed := true;
        }
        done := done + 1;
      }
      assert old(events)[..done] == old(events);
      return if changed then Err(Changed) else Ok(Unit);
    }

    method RequireLiveCutover() returns (r: Result<Unit>)
      ensures r.Ok? <==> ExitEvent !in events && RefreshEvent !in events
      ensures r.Err? ==> (r.error == Target <==> ExitEvent in events) && (r.error == Changed || r.error == Target)
    {
      if ExitEvent in events {
        return Err(Target);
      }
      if RefreshEvent in events {
        return Err(Changed);
      }
      return Ok(Unit);
    }

    /** The capture and then the metadata, with no output of the pane between them. */
    method CaptureBarrier(pane: Bytes) returns (r: Result<(Bytes, seq<Bytes>)>, ghost cut: nat)
      requires Sound()
      modifies this`pos, this`events, this`queued
      ensures Sound() && old(pos) <= pos && old(events) <= events
      ensures r.Ok? ==> Advanced(stream, old(pos), pos, old(events), events) && Drift() == old(Drift())
      ensures r.Ok? ==> old(pos) <= cut <= pos && r.value.1 == Payload(stream[old(pos)..cut])
      ensures r.Ok? ==> !Guarded(stream[cut..pos]) && Delivered(stream[cut..pos], pane) == []
      ensures r.Ok? ==> Payload(stream[cut..pos]) == [r.value.0]
      ensures old(Exact()) && r.Ok? ==> Exact()
    {
      hide Size, Guarded, Arrived, Delivered, Queued, Payload;
      cut := pos;
      var lines := Command(MAX_SNAPSHOT);
      if lines.Err? {
        r := Err(lines.error);
        return;
      }
      cut := pos;
      ghost var before := events;
      var boundary := |events|;
      var metadata := ReadResponse(MAX_METADATA);
      if metadata.Err? {
        r := Err(metadata.error);
        return;
      }
      AdvancedTwice(stream, old(pos), cut, pos, old(events), before, events);
      assert events[boundary..] == Arrived(stream[cut..pos]);
      if HasOutput(events[boundary..], pane) {
        r := Err(Changed);
        return;
      }
      NothingQueued(events[boundary..], pane);
      ArrivedDelivers(stream[cut..pos], pane);
      var line := SingleLine(metadata.value);
      if line.Err? {
        r := Err(line.error);
        return;
      }
      r := Ok((line.value, lines.value));
    }

    /** One pane: captured, checked against its earlier observation, and cut over. */
    method CapturePane(window: Window, pane: Pane, room: nat) returns (r: Result<(Pane, Bytes)>, ghost c: Cut)
      requires Exact() && PaneOk(pane)
      modifies this`pos, this`events, this`queued
      ensures Sound() && old(pos) <= pos
      ensures r.Ok? ==> Exact() && c.start == old(pos) && Recaptured(r.value.0, pane)
      ensures r.Ok? ==> |r.value.1| <= room && |r.value.1| <= MAX_SNAPSHOT
      ensures r.Ok? ==> CutOver(stream, c, pos, events, window, r.value.0, PaneSnapshot(pane.id, r.value.1))
      ensures r.Ok? ==> exists all :: Advanced(stream, old(pos), pos, old(events), all) && events == Kept(all, pane.id)
    {
      hide Size, Guarded, Arrived, Delivered, Queued, Payload, Render, ParsePaneRow, Kept;
      var start := pos;
      var barrier, cut := CaptureBarrier(pane.id);
      c := Cut(start, cut, pos);
      if barrier.Err? {
        r := Err(barrier.error);
        return;
      }
      var final := ParsePaneRow(barrier.value.0, window);
      if final.Err? {
        r := Err(final.error);
        return;
      }
      if !SameStructure(pane, final.value) {
        r := Err(Changed);
        return;
      }
      var current := pane.(screen := final.value.screen);
      var content := CaptureLines(barrier.value.1, current);
      if content.Err? {
        r := Err(content.error);
        return;
      }
      if |content.value| > room {
        r := Err(ProjectionTooLarge);
        return;
      }
      ghost var all := events;
      KeptKeeps(all, pane.id, pane.id);
      DiscardCapturedOutput(pane.id);
      assert Advanced(stream, old(pos), pos, old(events), all) && events == Kept(all, pane.id);
      r := Ok((current, content.value));
    }

    /** Every pane in turn; the ones already cut over stay exact while others are captured. */
    method CapturePanes(window: Window, panes: seq<Pane>)
      returns (r: Result<(seq<Pane>, seq<PaneSnapshot>)>, ghost cuts: seq<Cut>)
      requires Exact() && Distinct(Ids(panes)) && forall i :: 0 <= i < |panes| ==> PaneOk(panes[i])
      modifies this`pos, this`events, this`queued
      ensures Sound() && old(pos) <= pos
      ensures r.Ok? ==> Exact() && |r.value.0| == |r.value.1| == |cuts| == |panes|
      ensures r.Ok? ==> forall i :: 0 <= i < |panes| ==>
        old(pos) <= cuts[i].start && Recaptured(r.value.0[i], panes[i]) && |r.value.1[i].content| <= MAX_SNAPSHOT
        && CutOver(stream, cuts[i], pos, events, window, r.value.0[i], r.value.1[i])
      ensures r.Ok? ==> TotalSnapshot(r.value.1) <= MAX_PROJECTION
    {
      hide Size, Guarded, Arrived, Delivered, Queued, Payload, Render, PaneOk, Kept, CutOver;
      var current: seq<Pane> := [];
      var snapshots: seq<PaneSnapshot> := [];
      var bytes := 0;
      cuts := [];
      for i := 0 to |panes|
        invariant Exact() && old(pos) <= pos && |current| == |snapshots| == |cuts| == i
        invariant forall k :: 0 <= k < i ==>
          old(pos) <= cuts[k].start && Recaptured(current[k], panes[k]) && |snapshots[k].content| <= MAX_SNAPSHOT
          && CutOver(stream, cuts[k], pos, events, window, current[k], snapshots[k])
        invariant bytes == TotalSnapshot(snapshots) <= MAX_PROJECTION
      {
        ghost var p, before := pos, events;
        var captured, c := CapturePane(window, panes[i], MAX_PROJECTION - bytes);
        if captured.Err? {
          r := Err(captured.error);
          return;
        }
        forall k | 0 <= k < i ensures CutOver(stream, cuts[k], pos, events, window, current[k], snapshots[k]) {
          CutStays(stream, cuts[k], p, pos, before, events, window, current[k], snapshots[k], panes[i].id);
        }
        bytes := bytes + |captured.value.1|;
        var snapshot := PaneSnapshot(panes[i].id, captured.value.1);
        assert (snapshots + [snapshot])[..i] == snapshots;
        current, snapshots, cuts := current + [captured.value.0], snapshots + [snapshot], cuts + [c];
      }
      r := Ok((current, snapshots));
    }

    /** Whole responses were read, and nothing but their notifications was queued. */
    twostate predicate Moved()
      reads this
    {
      old(Sound()) && Sound() && Advanced(stream, old(pos), pos, old(events), events) && (old(Exact()) ==> Exact())
    }

    method ObserveWindows(session: Bytes) returns (r: Result<seq<WindowSummary>>)
      requires Sound()
      modifies this`pos, this`events, this`queued
      ensures Sound() && old(pos) <= pos && (r.Ok? ==> Moved() && WindowsOk(r.value) && IsNumericId(session, '$'))
      ensures r.Ok? ==> ParseWindows(Payload(stream[old(pos)..pos])) == r
    {
      hide Size, Guarded, Arrived, Payload;
      if !IsNumericId(session, '$') {
        return Err(Protocol);
      }
      var rows := Command(MAX_PROJECTION);
      if rows.Err? {
        return Err(rows.error);
      }
      r := ParseWindows(rows.value);
    }

    method ObserveWindow(session: Bytes, created: int) returns (r: Result<Window>)
      requires Sound()
      modifies this`pos, this`events, this`queued
      ensures Sound() && old(pos) <= pos && (r.Ok? ==> Moved() && WindowOk(r.value) && created > 0)
      ensures r.Ok? ==>
        exists q :: (old(pos) <= q <= pos
                     && ParseWindow(Payload(stream[old(pos)..q]), session, created) == Ok(r.value.(name := []))
                     && SafeText(Payload(stream[q..pos]), MAX_NAME) == Ok(r.value.name))
    {
      hide Size, Guarded, Arrived, Payload, ParseWindow, SafeText, TextOk, IsNumericId, IsGraphic;
      if !IsNumericId(session, '$') || created <= 0 {
        return Err(Protocol);
      }
      var rows := Command(MAX_PROJECTION);
      if rows.Err? {
        return Err(rows.error);
      }
      var window := ParseWindow(rows.value, session, created);
      if window.Err? {
        return window;
      }
      ghost var p, e := pos, events;
      var name := Command(MAX_PROJECTION);
      if name.Err? {
        return Err(name.error);
      }
      AdvancedTwice(stream, old(pos), p, pos, old(events), e, events);
      var text := SafeText(name.value, MAX_NAME);
      if text.Err? {
        return Err(text.error);
      }
      NamelessWindow(rows.value, session, created);
      assert ParseWindow(Payload(stream[old(pos)..p]), session, created) == window;
      assert window.value.(name := text.value).(name := []) == window.value;
      return Ok(window.value.(name := text.value));
    }

    method ObservePanes(window: Window) returns (r: Result<seq<Pane>>)
      requires Sound()
      modifies this`pos, this`events, this`queued
      ensures Sound() && old(pos) <= pos && (r.Ok? ==> Moved() && PanesOk(r.value))
      ensures r.Ok? ==> forall i :: 0 <= i < |r.value| ==> Inside(r.value[i], window)
      ensures r.Ok? ==>
                AllParse(Payload(stream[old(pos)..pos]), window)
                && r.value == Panes(Payload(stream[old(pos)..pos]), window)
    {
      hide Size, Guarded, Arrived, PanesOk, Inside, Payload, AllParse;
      var rows := Command(MAX_PROJECTION);
      if rows.Err? {
        return Err(rows.error);
      }
      r := ParsePaneRows(rows.value, window);
    }

    /** Titles and commands are filled in; everything else about the panes stays. */
    method ObservePaneLabels(panes: seq<Pane>) returns (r: Result<seq<Pane>>)
      requires Sound()
      modifies this`pos, this`events, this`queued
      ensures Sound() && old(pos) <= pos
      ensures old(Exact()) && r.Ok? ==> Exact()
      ensures r.Ok? ==> |r.value| == |panes|
      ensures r.Ok? ==> forall i :: 0 <= i < |panes| ==> LabelsOk(r.value[i]) && Relabelled(r.value[i], panes[i])
    {
      hide Size, Guarded, Arrived, SafeText, TextOk, PanesOk;
      var labelled: seq<Pane> := [];
      for i := 0 to |panes|
        invariant Sound() && old(pos) <= pos && |labelled| == i && (old(Exact()) ==> Exact())
        invariant forall k :: 0 <= k < i ==> LabelsOk(labelled[k]) && Relabelled(labelled[k], panes[k])
      {
        var rows := Command(MAX_PROJECTION);
        if rows.Err? {
          return Err(rows.error);
        }
        var title := SafeText(rows.value, MAX_TEXT);
        if title.Err? {
          return Err(title.error);
        }
        rows := Command(MAX_PROJECTION);
        if rows.Err? {
          return Err(rows.error);
        }
        var command := SafeText(rows.value, MAX_TEXT);
        if command.Err? {
          return Err(command.error);
        }
        labelled := labelled + [panes[i].(title := title.value, command := command.value)];
      }
      return Ok(labelled);
    }

    /** One command per pane, whose payload is ignored: used to pause and to continue delivery. */
    method CommandEach(panes: seq<Pane>) returns (r: Result<Unit>)
      requires Sound()
      modifies this`pos, this`events, this`queued
      ensures Sound() && old(pos) <= pos && (old(Exact()) && r.Ok? ==> Exact())
    {
      for i := 0 to |panes|
        invariant Sound() && old(pos) <= pos && (old(Exact()) ==> Exact())
      {
        var rows := Command(MAX_PROJECTION);
        if rows.Err? {
          return Err(rows.error);
        }
      }
      return Ok(Unit);
    }

    method RevalidateProjection(session: Bytes, created: int, window: Window, panes: seq<Pane>)
      returns (r: Result<Unit>)
      requires Sound()
      modifies this`pos, this`events, this`queued
      ensures Sound() && old(pos) <= pos && (r.Ok? ==> Moved())
      ensures r.Ok? ==> exists q :: old(pos) <= q <= pos && Unchanged(Payload(stream[q..pos]), window, panes)
    {
      hide Size, Guarded, Arrived, PanesOk, Payload, AllParse;
      var windows := ObserveWindows(session);
      if windows.Err? {
        return Err(windows.error);
      }
      ghost var p1, e1 := pos, events;
      var observed := ObserveWindow(session, created);
      if observed.Err? {
        return Err(observed.error);
      }
      AdvancedTwice(stream, old(pos), p1, pos, old(events), e1, events);
      if observed.value != window || ActiveWindows(windows.value)[0].id != observed.value.id {
        return Err(Changed);
      }
      ghost var p2, e2 := pos, events;
      var again := ObservePanes(observed.value);
      if again.Err? {
        return Err(again.error);
      }
      AdvancedTwice(stream, old(pos), p2, pos, old(events), e2, events);
      if |again.value| != |panes| || exists i :: 0 <= i < |panes| && !SameStructure(again.value[i], panes[i]) {
        return Err(Changed);
      }
      assert Unchanged(Payload(stream[p2..pos]), window, panes);
      return Ok(Unit);
    }

    /** The projection's panes, cut over at `cuts`, as promised by a successful attempt. */
    ghost predicate Hydrated(p: Projection, cuts: seq<Cut>)
      reads this
    {
      Exact() && ProjectionOk(p) && |cuts| == |p.panes| && RefreshEvent !in events && ExitEvent !in events
      && forall i :: 0 <= i < |cuts| ==> CutOver(stream, cuts[i], pos, events, p.window, p.panes[i], p.snapshots[i])
    }

    method HydrateOnce(session: Bytes, created: int) returns (r: Result<Projection>, ghost cuts: seq<Cut>)
      requires Exact()
      modifies this`pos, this`events, this`queued
      ensures Sound() && old(pos) <= pos
      ensures r.Ok? ==> Hydrated(r.value, cuts) && forall i :: 0 <= i < |cuts| ==> old(pos) <= cuts[i].start
      ensures r.Ok? ==> IsNumericId(session, '$') && created > 0
    {
      hide Size, Guarded, Arrived, Render, Delivered, Queued;
      hide Payload, WindowOk, PanesOk, Inside, IsNumericId, ProjectionOk;
      cuts := [];
      var windows := ObserveWindows(session);
      if windows.Err? {
        r := Err(windows.error);
        return;
      }
      var window := ObserveWindow(session, created);
      if window.Err? {
        r := Err(window.error);
        return;
      }
      if ActiveWindows(windows.value)[0].id != window.value.id {
        r := Err(Changed);
        return;
      }
      var observed := ObservePanes(window.value);
      if observed.Err? {
        r := Err(observed.error);
        return;
      }
      r, cuts := CutOverPanes(session, created, windows.value, window.value, observed.value);
    }

    /** The second half of an attempt: labels, pause, drain, continue, capture, revalidate. */
    method CutOverPanes(session: Bytes, created: int, windows: seq<WindowSummary>, window: Window, observed: seq<Pane>)
      returns (r: Result<Projection>, ghost cuts: seq<Cut>)
      requires Exact() && PanesOk(observed) && forall i :: 0 <= i < |observed| ==> Inside(observed[i], window)
      requires WindowsOk(windows) && WindowOk(window) && ActiveWindows(windows)[0].id == window.id
      modifies this`pos, this`events, this`queued
      ensures Sound() && old(pos) <= pos
      ensures r.Ok? ==> Hydrated(r.value, cuts) && forall i :: 0 <= i < |cuts| ==> old(pos) <= cuts[i].start
    {
      hide Size, Guarded, Arrived, Render, Delivered, Queued;
      hide Payload, WindowOk, WindowsOk, ActiveWindows, PanesOk, Inside;
      hide LabelsOk, Relabelled, Recaptured, ProjectionOk, PaneOk, TotalSnapshot;
      cuts := [];
      var labelled := ObservePaneLabels(observed);
      if labelled.Err? {
        r := Err(labelled.error);
        return;
      }
      var panes := labelled.value;
      LabelledPanes(observed, panes);
      var done := CommandEach(panes);
      if done.Err? {
        r := Err(done.error);
        return;
      }
      done := RequireStableCutover();
      if done.Err? {
        r := Err(done.error);
        return;
      }
      done := CommandEach(panes);
      if done.Err? {
        r := Err(done.error);
        return;
      }
      var captured;
      captured, cuts := CapturePanes(window, panes);
      if captured.Err? {
        r := Err(captured.error);
        return;
      }
      ghost var p, e := pos, events;
      done := RevalidateProjection(session, created, window, captured.value.0);
      if done.Err? {
        r := Err(done.error);
        return;
      }
      forall i | 0 <= i < |cuts|
        ensures CutOver(stream, cuts[i], pos, events, window, captured.value.0[i], captured.value.1[i])
      {
        LiveAdvances(stream, cuts[i].cut, p, pos, e, events, captured.value.0[i].id);
      }
      done := RequireLiveCutover();
      if done.Err? {
        r := Err(done.error);
        return;
      }
      var projection := Projection(windows, window, captured.value.0, captured.value.1);
      ProjectionFits(projection, observed, panes);
      r := Ok(projection);
    }

    /**
      Up to three attempts. On success, for every visible pane the snapshot renders its capture
      response and the queue holds exactly the output delivered after it; no change is pending.
     */
    method Hydrate(session: Bytes, created: int) returns (r: Result<Projection>, ghost cuts: seq<Cut>)
      requires Sound()
      modifies this`pos, this`events, this`queued
      ensures Sound() && old(pos) <= pos
      ensures r.Ok? ==> Hydrated(r.value, cuts) && forall i :: 0 <= i < |cuts| ==> old(pos) <= cuts[i].start
      ensures r.Ok? ==> IsNumericId(session, '$') && created > 0
    {
      hide Hydrated, IsNumericId;
      for i := 0 to ATTEMPTS
        invariant Sound() && old(pos) <= pos
      {
        ClearEvents();
        r, cuts := HydrateOnce(session, created);
        if r.Ok? || r.error != Changed {
          return;
        }
      }
      r, cuts := Err(Changed), [];
    }
  }

  function TotalSnapshot(snapshots: seq<PaneSnapshot>): nat
  {
    if snapshots == [] then 0 else TotalSnapshot(snapshots[..|snapshots| - 1]) + |snapshots[|snapshots| - 1].content|
  }

  // ---- Steps of the queue ----

  lemma SizeEmpty()
    ensures Size([]) == 0
  {
  }

  lemma SizedSnoc(events: seq<Event>, e: Event)
    requires Sized(events) && (e.OutputEvent? ==> 1 <= |e.data| <= MAX_CHUNK)
    ensures Sized(events + [e])
  {
  }

  lemma NoChunks(data: Bytes)
    ensures Chunks(data) == [] <==> data == []
  {
  }

  lemma SizeSnoc(events: seq<Event>, e: Event)
    ensures Size(events + [e]) == Size(events) + Weight(e)
  {
    assert (events + [e])[..|events|] == events;
  }

  lemma SizeCons(events: seq<Event>)
    requires events != []
    ensures Size(events) == Weight(events[0]) + Size(events[1..])
  {
    assert events == events[..1] + events[1..];
    QueuedSplit(events[..1], events[1..], []);
    assert events[..1][..0] == [];
  }

  lemma {:induction false} SizePrefix(events: seq<Event>, i: nat)
    requires i <= |events|
    ensures Size(events[..i]) <= Size(events)
    decreases |events|
  {
    if i == |events| {
      assert events[..i] == events;
    } else {
      SizePrefix(events[..|events| - 1], i);
      assert events[..|events| - 1][..i] == events[..i];
    }
  }

  lemma LengthSnoc(rows: seq<Bytes>, row: Bytes)
    ensures Length(rows + [row]) == Length(rows) + |row|
  {
    assert (rows + [row])[..|rows|] == rows;
  }

  lemma QuietEvents(note: Note)
    ensures note.Quiet? ==> EventsOf(note) == []
    ensures note.Exit? ==> EventsOf(note) == [ExitEvent]
    ensures note.Refresh? ==> EventsOf(note) == [RefreshEvent]
  {
  }

  lemma NothingRead()
    ensures !Guarded([]) && Payload([]) == [] && Arrived([]) == [] && Length([]) == 0
  {
  }

  lemma GuardCloses(stream: seq<Bytes>, start: nat, pos: nat, guardAt: nat, closing: Bytes)
    requires start <= guardAt < pos - 1 && pos <= |stream| && ParseMarker(stream[guardAt], BEGIN).Marker?
    requires ParseMarker(stream[pos - 1], closing) == ParseMarker(stream[guardAt], BEGIN)
    requires forall i :: start <= i < guardAt ==> !(BEGIN <= stream[i])
    ensures Guard(stream[start..pos], guardAt - start, closing)
  {
    hide ParseMarker;
    var segment, b := stream[start..pos], guardAt - start;
    assert segment[b] == stream[guardAt] && segment[|segment| - 1] == stream[pos - 1];
    forall i | 0 <= i < b ensures !(BEGIN <= segment[i]) {
      assert segment[i] == stream[start + i];
    }
  }

  /** The opening of a response is no notification. */
  lemma BeginIsUnknown(record: Bytes)
    ensures BEGIN <= record ==> Parse(record).Unknown?
  {
    if BEGIN <= record {
      var line := StripNewline(record);
      assert record[1] == BEGIN[1] == 'b' && |record| >= 7;
      assert line[1] == 'b';
      SecondLetter(line);
    }
  }

  lemma NotPrefix(p: Bytes, line: Bytes)
    requires |p| >= 2 && |line| >= 2 && p[1] != line[1]
    ensures !(p <= line) && p != line
  {
  }

  lemma SecondLetter(line: Bytes)
    requires |line| >= 2 && line[1] == 'b'
    ensures !(OUTPUT <= line) && !(EXTENDED <= line) && !IsExit(line) && !(PAUSE <= line) && !(CONTINUE <= line)
    ensures !IsRefresh(line) && !IsIgnorable(line)
  {
    NotPrefix(OUTPUT, line);
    NotPrefix(EXTENDED, line);
    NotPrefix(PAUSE, line);
    NotPrefix(CONTINUE, line);
    NotPrefix("%exit", line);
    NotPrefix("%exit ", line);
    NotRefresh(line);
    NotIgnorable(line);
  }

  lemma NotRefresh(line: Bytes)
    requires |line| >= 2 && line[1] == 'b'
    ensures !IsRefresh(line)
  {
    NotPrefix("%sessions-changed", line);
    NotPrefix("%layout-change ", line);
    NotPrefix("%pane-mode-changed ", line);
    NotPrefix("%session-changed ", line);
    NotPrefix("%session-renamed ", line);
    NotPrefix("%session-window-changed ", line);
    NotPrefix("%subscription-changed ", line);
    NotPrefix("%window-add ", line);
    NotPrefix("%window-close ", line);
    NotPrefix("%window-pane-changed ", line);
    NotPrefix("%window-renamed ", line);
  }

  lemma NotIgnorable(line: Bytes)
    requires |line| >= 2 && line[1] == 'b'
    ensures !IsIgnorable(line)
  {
    NotPrefix("%client-active ", line);
    NotPrefix("%client-detached ", line);
    NotPrefix("%client-session-changed ", line);
    NotPrefix("%client-window-changed ", line);
    NotPrefix("%message ", line);
    NotPrefix("%paste-buffer-changed ", line);
    NotPrefix("%paste-buffer-deleted ", line);
    NotPrefix("%unlinked-window-add ", line);
    NotPrefix("%unlinked-window-close ", line);
    NotPrefix("%unlinked-window-renamed ", line);
  }

  /** What one more record adds. */
  lemma OneMore(front: seq<Bytes>, line: Bytes)
    ensures var all := front + [line];
            Guarded(all) == (if Guarded(front) then !(END <= line) && !(ERROR <= line) else BEGIN <= line)
            && Payload(all) == Payload(front)
               + (if Guarded(front) && !(END <= line) && !(ERROR <= line) then [StripNewline(line)] else [])
            && Arrived(all) == Arrived(front) + (if Guarded(front) || BEGIN <= line then [] else EventsOf(Parse(line)))
            && Length(all) == Length(front) + |line|
  {
    assert (front + [line])[..|front|] == front;
    hide Parse, EventsOf, Guarded;
    QuietEvents(Quiet);
  }

  /** Whatever is read later, a cut-over pane stays exact. */
  lemma CutAdvances(stream: seq<Bytes>, c: Cut, p: nat, q: nat, before: seq<Event>, after: seq<Event>,
                    window: Window, pane: Pane, snapshot: PaneSnapshot)
    requires CutOver(stream, c, p, before, window, pane, snapshot) && Advanced(stream, p, q, before, after)
    ensures CutOver(stream, c, q, after, window, pane, snapshot)
  {
    hide Render, PaneOk, Observed;
    LiveAdvances(stream, c.cut, p, q, before, after, pane.id);
  }

  /** Capturing another pane neither loses nor repeats output of this one. */
  lemma CutStays(stream: seq<Bytes>, c: Cut, p: nat, q: nat, before: seq<Event>, after: seq<Event>,
                 window: Window, pane: Pane, snapshot: PaneSnapshot, other: Bytes)
    requires CutOver(stream, c, p, before, window, pane, snapshot) && other != pane.id
    requires exists all :: Advanced(stream, p, q, before, all) && after == Kept(all, other)
    ensures CutOver(stream, c, q, after, window, pane, snapshot)
  {
    hide Render, PaneOk, Observed;
    var all :| Advanced(stream, p, q, before, all) && after == Kept(all, other);
    LiveAdvances(stream, c.cut, p, q, before, all, pane.id);
    KeptKeeps(all, other, pane.id);
  }
}
