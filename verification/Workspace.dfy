/** A workspace on the server: frames written to the Browser while the control connection is read. */
module Workspace {
  import opened Common
  import opened Tmux
  import opened Snapshot
  import opened Delivery
  import opened Control
  import opened Frames
  import Base64

  class Attachment {
    const control: ControlAdapter
    var sent: seq<Frame>

    constructor (control: ControlAdapter)
      ensures this.control == control && sent == []
    {
      this.control := control;
      sent := [];
    }

    /** Writes one frame of `size` bytes; notifications arriving meanwhile are queued. */
    method SendWithControl(frame: Frame, size: nat) returns (r: Result<Unit>)
      requires control.Sound()
      modifies this`sent, control`pos, control`events, control`queued
      ensures control.Sound()
      ensures r.Ok? ==> size <= MAX_FRAME && sent == old(sent) + [frame] && control.Moved()
      ensures r.Err? ==> sent == old(sent)
    {
      if size > MAX_FRAME {
        return Err(Protocol);
      }
      hide Size, Guarded, Arrived, Sized;
      NothingAdvances(control.stream, control.pos, control.events);
      while true
        invariant control.Sound() && sent == old(sent) && control.Moved()
        decreases |control.stream| - control.pos
      {
        if * {
          if * {
            return Err(Ssh);
          }
          sent := sent + [frame];
          return Ok(Unit);
        }
        ghost var p, e := control.pos, control.events;
        var pumped := control.PumpEvent();
        if pumped.Err? {
          return pumped;
        }
        AdvancedTwice(control.stream, old(control.pos), p, control.pos, old(control.events), e, control.events);
      }
    }

    /** All chunks of one snapshot, in order; none is refused for its size. */
    method SendSnapshot(epoch: Uuid, text: Bytes, s: PaneSnapshot) returns (r: Result<Unit>)
      requires control.Sound() && |text| == 36 && IsPaneId(s.pane) && |s.content| <= MAX_SNAPSHOT
      modifies this`sent, control`pos, control`events, control`queued
      ensures control.Sound()
      ensures r.Ok? ==> sent == old(sent) + SnapshotFrames(epoch, s) && control.Moved()
    {
      hide Base64.Encode, Chunks, Size, Guarded, Arrived, Sized, SnapshotText, IsPaneId;
      var chunks := Chunks(s.content);
      if chunks == [] {
        var only := SnapshotFrame(epoch, s.pane, 0, true, []);
        SnapshotFrameFits(text, epoch, s, 0);
        r := SendWithControl(only, |SnapshotText(text, only)|);
        return;
      }
      ghost var frames := SnapshotFrames(epoch, s);
      FrameAt(epoch, s, 0);
      NothingAdvances(control.stream, control.pos, control.events);
      var last := |chunks| - 1;
      for j := 0 to |chunks|
        invariant control.Sound() && control.Moved() && sent == old(sent) + frames[..j]
      {
        hide SnapshotFrames;
        FrameAt(epoch, s, j);
        ghost var p, e := control.pos, control.events;
        var frame := SnapshotFrame(epoch, s.pane, j, j == last, Base64.Encode(chunks[j]));
        r := SendWithControl(frame, |SnapshotText(text, frame)|);
        if r.Err? {
          return;
        }
        AdvancedTwice(control.stream, old(control.pos), p, control.pos, old(control.events), e, control.events);
      }
      assert frames[..|chunks|] == frames;
      return Ok(Unit);
    }

    method SendSnapshots(epoch: Uuid, text: Bytes, snapshots: seq<PaneSnapshot>) returns (r: Result<Unit>)
      requires control.Sound() && |text| == 36
      requires forall i :: 0 <= i < |snapshots| ==>
                 IsPaneId(snapshots[i].pane) && |snapshots[i].content| <= MAX_SNAPSHOT
      modifies this`sent, control`pos, control`events, control`queued
      ensures control.Sound()
      ensures r.Ok? ==> sent == old(sent) + AllSnapshots(epoch, snapshots) && control.Moved()
    {
      hide Size, Guarded, Arrived, Sized, SnapshotFrames, IsPaneId;
      NothingAdvances(control.stream, control.pos, control.events);
      for i := 0 to |snapshots|
        invariant control.Sound() && control.Moved() && sent == old(sent) + AllSnapshots(epoch, snapshots[..i])
      {
        ghost var p, e := control.pos, control.events;
        assert snapshots[..i + 1][..i] == snapshots[..i];
        r := SendSnapshot(epoch, text, snapshots[i]);
        if r.Err? {
          return;
        }
        AdvancedTwice(control.stream, old(control.pos), p, control.pos, old(control.events), e, control.events);
      }
      assert snapshots[..|snapshots|] == snapshots;
      return Ok(Unit);
    }

    /** The panes of a projection, still exactly cut over after everything read so far. */
    ghost predicate Installed(p: Projection, cuts: seq<Cut>)
      reads this, control
    {
      control.Exact() && ProjectionOk(p) && |cuts| == |p.panes|
      && forall i :: 0 <= i < |cuts| ==>
           CutOver(control.stream, cuts[i], control.pos, control.events, p.window, p.panes[i], p.snapshots[i])
    }

    /**
      Connecting, a hydrated projection, its snapshots and Ready. `text` is the hyphenated workspace
      epoch and `headingSize` the length of the heading's text, which alone can be too long.
     */
    method InstallProjection(connection: nat, epoch: Uuid, text: Bytes, session: Bytes, created: int,
                             headingSize: Projection -> nat)
      returns (r: Result<Projection>, ghost cuts: seq<Cut>)
      requires control.Sound() && |text| == 36
      modifies this`sent, control`pos, control`events, control`queued
      ensures control.Sound()
      ensures r.Ok? ==> sent == old(sent) + Emitted(r.value, connection, epoch, session, created)
      ensures r.Ok? ==> Installed(r.value, cuts) && headingSize(r.value) <= MAX_FRAME
      ensures r.Ok? ==> IsNumericId(session, '$') && created > 0
    {
      hide Size, Guarded, Arrived, Sized, SnapshotFrames, AllSnapshots, ProjectionOk, IsNumericId, CutOver, Heading;
      cuts := [];
      if * {
        r := Err(Ssh);
        return;
      }
      sent := sent + [PhaseFrame(Connecting)];
      r, cuts := control.Hydrate(session, created);
      if r.Err? {
        return;
      }
      var p := r.value;
      ghost var p0, e0 := control.pos, control.events;
      var heading := Heading(p, connection, epoch, session, created);
      var done := SendWithControl(heading, headingSize(p));
      if done.Err? {
        r := Err(done.error);
        return;
      }
      ghost var p1, e1 := control.pos, control.events;
      SnapshotsSendable(p);
      done := SendSnapshots(epoch, text, p.snapshots);
      if done.Err? {
        r := Err(done.error);
        return;
      }
      AdvancedTwice(control.stream, p0, p1, control.pos, e0, e1, control.events);
      ghost var p2, e2 := control.pos, control.events;
      done := SendWithControl(PhaseFrame(Ready), READY_SIZE);
      if done.Err? {
        r := Err(done.error);
        return;
      }
      AdvancedTwice(control.stream, p0, p2, control.pos, e0, e2, control.events);
      forall i | 0 <= i < |cuts|
        ensures CutOver(control.stream, cuts[i], control.pos, control.events, p.window, p.panes[i], p.snapshots[i])
      {
        CutAdvances(control.stream, cuts[i], p0, control.pos, e0, control.events, p.window, p.panes[i], p.snapshots[i]);
      }
      SentInOrder(old(sent), heading, AllSnapshots(epoch, p.snapshots));
    }

    /** Queued events in order: output of visible panes is framed, an exit ends the workspace. */
    method ForwardQueued(epoch: Uuid, visible: set<Bytes>) returns (dirty: bool, exited: bool)
      requires control.Sound()
      modifies this`sent, control`events, control`queued
      ensures control.Sound() && control.Drift() == old(control.Drift())
      ensures exited <==> ExitEvent in old(control.events)
      ensures !exited ==> control.events == [] && (dirty <==> RefreshEvent in old(control.events))
      ensures !exited ==> sent == old(sent) + OutputFrames(epoch, visible, old(control.events))
    {
      hide Size, Sized, Base64.Encode, OutputFrames;
      NoneForwarded(epoch, visible);
      dirty, exited := false, false;
      ghost var all, done: nat := control.events, 0;
      assert all[..0] == [] && all[0..] == all;
      while control.events != []
        invariant control.Sound() && control.Drift() == old(control.Drift())
        invariant done <= |all| && control.events == all[done..] && ExitEvent !in all[..done]
        invariant dirty <==> RefreshEvent in all[..done]
        invariant sent == old(sent) + OutputFrames(epoch, visible, all[..done])
        decreases |control.events|
      {
        var e := control.PopEvent();
        assert e.value == all[done] && all[done..][1..] == all[done + 1..];
        OneForwarded(epoch, visible, all, done);
        match e.value {
          case OutputEvent(pane, data) =>
            if pane in visible {
              sent := sent + [OutputFrame(epoch, pane, Base64.Encode(data))];
            }
          case RefreshEvent =>
            dirty := true;
          case ExitEvent =>
            exited := true;
            return;
        }
        done := done + 1;
      }
      assert all[..done] == all;
    }
  }

  /** {"type":"workspace.phase","phase":"ready"} */
  const READY_SIZE: nat := 42

  lemma NoneForwarded(epoch: Uuid, visible: set<Bytes>)
    ensures OutputFrames(epoch, visible, []) == []
  {
  }

  lemma OneForwarded(epoch: Uuid, visible: set<Bytes>, events: seq<Event>, k: nat)
    requires k < |events|
    ensures events[..k + 1] == events[..k] + [events[k]]
    ensures var e := events[k];
            OutputFrames(epoch, visible, events[..k + 1])
            == OutputFrames(epoch, visible, events[..k])
               + if e.OutputEvent? && e.pane in visible then [OutputFrame(epoch, e.pane, Base64.Encode(e.data))] else []
  {
    assert events[..k + 1][..k] == events[..k];
  }

  lemma NothingAdvances(stream: seq<Bytes>, pos: nat, events: seq<Event>)
    requires pos <= |stream|
    ensures Advanced(stream, pos, pos, events, events)
  {
    assert stream[pos..pos] == [];
  }

  lemma SnapshotsSendable(p: Projection)
    requires ProjectionOk(p)
    ensures |p.snapshots| == |p.panes|
    ensures forall i :: 0 <= i < |p.snapshots| ==>
              IsPaneId(p.snapshots[i].pane) && |p.snapshots[i].content| <= MAX_SNAPSHOT
  {
    hide WindowsOk, WindowOk, ActiveWindows, ActiveCount, Cells, LabelsOk, Inside, IsPaneId, Distinct;
    forall i | 0 <= i < |p.snapshots| ensures IsPaneId(p.snapshots[i].pane) {
      assert PaneOk(p.panes[i]);
    }
  }

  lemma SentInOrder(sent: seq<Frame>, heading: Frame, body: seq<Frame>)
    ensures sent + [PhaseFrame(Connecting)] + [heading] + body + [PhaseFrame(Ready)]
            == sent + ([PhaseFrame(Connecting), heading] + body + [PhaseFrame(Ready)])
  {
  }
}
