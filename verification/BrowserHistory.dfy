/** The Browser's verdicts in terms of the frames it has received, without any state of its own. */
module BrowserHistory {
  import opened Common
  import opened Tmux
  import opened Snapshot
  import opened Control
  import opened Frames
  import opened Browser
  import opened Installation

  const START := View(None, None, None, None, {})

  /** Parsed frames received, none of which was refused, and the validator's views between them. */
  predicate Received(views: seq<View>, frames: seq<Frame>)
  {
    |views| == |frames| + 1 && views[0] == START
    && forall i :: 0 <= i < |frames| ==>
         Step(views[i], frames[i]).1 != Reject && views[i + 1] == Step(views[i], frames[i]).0
  }

  // ---- What the history says ----

  /** The last phase other than ready, session list or projection: what put an end to earlier workspaces. */
  function LastReset(frames: seq<Frame>): Option<Frame>
  {
    if frames == [] then None
    else
      var last := frames[|frames| - 1];
      if (last.PhaseFrame? && last.phase != Phase.Ready) || last.SessionList? || last.ProjectionFrame? then Some(last)
      else LastReset(frames[..|frames| - 1])
  }

  /** A Ready has come since then. */
  predicate ReadySince(frames: seq<Frame>)
  {
    frames != [] &&
    var last := frames[|frames| - 1];
    if last.PhaseFrame? then last.phase == Phase.Ready
    else !last.SessionList? && !last.ProjectionFrame? && ReadySince(frames[..|frames| - 1])
  }

  /** The projection that is shown, or still being received. */
  predicate UnderProjection(frames: seq<Frame>, epoch: Uuid, pane: Bytes)
  {
    var reset := LastReset(frames);
    reset.Some? && reset.value.ProjectionFrame? && reset.value.epoch == epoch && pane in IdSet(reset.value.panes)
  }

  /** Connection and epoch of the last session list or projection. */
  function LastHeading(frames: seq<Frame>): Option<(Bytes, Uuid)>
  {
    if frames == [] then None
    else
      match frames[|frames| - 1]
      case SessionList(connection, selection) => Some((connection, selection))
      case ProjectionFrame(connection, epoch, _, _, _, _, _) => Some((connection, epoch))
      case _ => LastHeading(frames[..|frames| - 1])
  }

  /** Connection of the last session list. */
  function LastListed(frames: seq<Frame>): Option<Bytes>
  {
    if frames == [] then None
    else if frames[|frames| - 1].SessionList? then Some(frames[|frames| - 1].connection)
    else LastListed(frames[..|frames| - 1])
  }

  /** The snapshot frames received since the last projection. */
  function Snapshots(frames: seq<Frame>): seq<Frame>
  {
    if frames == [] then []
    else
      var front, last := Snapshots(frames[..|frames| - 1]), frames[|frames| - 1];
      if last.ProjectionFrame? then [] else if last.SnapshotFrame? then front + [last] else front
  }

  /** A snapshot frame continues its pane: the next chunk of an unfinished pane, within the limits. */
  predicate Continues(frames: seq<Frame>, f: Frame)
    requires f.SnapshotFrame?
  {
    var own := Of(Snapshots(frames), f.pane);
    UnderProjection(frames, f.epoch, f.pane) && !ReadySince(frames) && !Finished(own) && f.index == |own|
    && (f.final || f.data != [])
    && |Reassembled(Snapshots(frames), f.pane)| + |f.data| <= MAX_SNAPSHOT
    && Total(Snapshots(frames)) + |f.data| <= MAX_PROJECTION
  }

  /** A projection is under way and every one of its panes has had its final chunk. */
  predicate Complete(frames: seq<Frame>)
  {
    var reset := LastReset(frames);
    reset.Some? && reset.value.ProjectionFrame? && !ReadySince(frames)
    && forall id :: id in IdSet(reset.value.panes) ==> Finished(Of(Snapshots(frames), id))
  }

  /** The verdict the history calls for. */
  function Expected(frames: seq<Frame>, f: Frame): Verdict
  {
    match f
    case PhaseFrame(phase) => if phase != Phase.Ready || Complete(frames) then Accept else Reject
    case SessionList(_, _) => Accept
    case WriterState(connection, attachment) =>
      if LastHeading(frames) == Some((connection, attachment)) then Accept else Ignore
    case ProjectionFrame(connection, _, _, _, _, _, _) =>
      if LastListed(frames) == Some(connection) then Accept else Reject
    case SnapshotFrame(_, _, _, _, _) => if Continues(frames, f) then Accept else Reject
    case OutputFrame(epoch, pane, _) =>
      if UnderProjection(frames, epoch, pane) && ReadySince(frames) then Accept else Ignore
  }

  // ---- The validator agrees ----

  /** The view holds exactly what the history says. */
  ghost predicate Agrees(v: View, frames: seq<Frame>)
  {
    var reset := LastReset(frames);
    var projected := reset.Some? && reset.value.ProjectionFrame?;
    && v.connection == LastListed(frames)
    && LastHeading(frames)
       == (if v.connection.Some? && v.attachment.Some? then Some((v.connection.value, v.attachment.value)) else None)
    && (v.connection.Some? <==> v.attachment.Some?)
    && (v.pending.Some? <==> projected && !ReadySince(frames))
    && (v.pending.Some? ==>
          v.pending.value.epoch == reset.value.epoch && v.pending.value.ids == IdSet(reset.value.panes)
          && Tracked(v.pending.value, Snapshots(frames)))
    && (v.workspace.Some? <==> projected && ReadySince(frames))
    && (v.workspace.Some? ==> v.workspace == Some(reset.value.epoch) && v.panes == IdSet(reset.value.panes))
    && (v.workspace.None? ==> v.panes == {})
  }

  lemma StartAgrees()
    ensures Agrees(START, [])
  {
  }

  /** One more frame that is not refused. */
  lemma AgreementStays(v: View, frames: seq<Frame>, f: Frame)
    requires Agrees(v, frames) && Step(v, f).1 != Reject
    ensures Agrees(Step(v, f).0, frames + [f])
  {
    var all, v' := frames + [f], Step(v, f).0;
    assert all[..|frames|] == frames && all[|all| - 1] == f;
    if v'.pending.Some? {
      SnapshotsTracked(v, frames, f);
    }
    hide Tracked, Of, Counted, Fresh, IdSet, InOrder, WithinLimits;
    PendingKept(v, f);
  }

  lemma PendingKept(v: View, f: Frame)
    ensures var v' := Step(v, f).0;
            f.SnapshotFrame? && v'.pending.Some? ==>
              v.pending.Some? && v'.pending.value.epoch == v.pending.value.epoch
              && v'.pending.value.ids == v.pending.value.ids
    ensures var v' := Step(v, f).0;
            f.ProjectionFrame? && Step(v, f).1 == Accept ==>
              v'.pending.Some? && v'.pending.value.epoch == f.epoch && v'.pending.value.ids == IdSet(f.panes)
  {
  }

  lemma SnapshotsTracked(v: View, frames: seq<Frame>, f: Frame)
    requires Agrees(v, frames) && Step(v, f).1 != Reject && Step(v, f).0.pending.Some?
    ensures Tracked(Step(v, f).0.pending.value, Snapshots(frames + [f]))
  {
    assert (frames + [f])[..|frames|] == frames;
    hide Tracked, Of, IdSet, LastReset, ReadySince, LastHeading, LastListed;
    if Step(v, f).1 == Accept {
      AcceptKeepsTracked(v, f, Snapshots(frames));
    }
  }

  lemma {:induction false} ReceivedAgrees(views: seq<View>, frames: seq<Frame>, n: nat)
    requires Received(views, frames) && n <= |frames|
    ensures Agrees(views[n], frames[..n])
  {
    hide Step, Agrees;
    if n == 0 {
      StartAgrees();
      assert frames[..0] == [];
    } else {
      ReceivedAgrees(views, frames, n - 1);
      AgreementStays(views[n - 1], frames[..n - 1], frames[n - 1]);
      assert frames[..n] == frames[..n - 1] + [frames[n - 1]];
    }
  }

  lemma AllCompleted(p: Pending, history: seq<Frame>)
    requires Tracked(p, history)
    ensures |p.completed| == |p.ids| <==> forall id :: id in p.ids ==> Finished(Of(history, id))
  {
    forall id | id in p.ids ensures id in p.completed <==> Finished(Of(history, id)) {
      assert PaneTracked(p, history, id);
    }
    if |p.completed| == |p.ids| {
      SubsetOfEqualSize(p.completed, p.ids);
    } else {
      assert p.completed != p.ids;
    }
  }

  lemma SnapshotVerdict(v: View, frames: seq<Frame>, f: Frame)
    requires Agrees(v, frames) && f.SnapshotFrame?
    ensures Step(v, f).1 == if Continues(frames, f) then Accept else Reject
  {
    hide Of, Reassembled, Total, LastReset, ReadySince, LastHeading, LastListed, IdSet, Finished;
    if v.pending.Some? && f.pane in v.pending.value.ids {
      assert PaneTracked(v.pending.value, Snapshots(frames), f.pane);
    }
  }

  /**
    After any frames none of which was refused, the verdict on the next one is the one the history
    calls for: output is shown exactly under the last completed projection, writer states count
    exactly for the last heading, projections are refused exactly for another connection, and chunks
    and Ready exactly when they do not continue or complete the projection.
   */
  lemma VerdictIsExpected(views: seq<View>, frames: seq<Frame>, f: Frame)
    requires Received(views, frames)
    ensures Step(views[|frames|], f).1 == Expected(frames, f)
  {
    var v := views[|frames|];
    ReceivedAgrees(views, frames, |frames|);
    assert frames[..|frames|] == frames;
    if f.SnapshotFrame? {
      SnapshotVerdict(v, frames, f);
    } else {
      if v.pending.Some? {
        AllCompleted(v.pending.value, Snapshots(frames));
      }
      hide Tracked, Of, Snapshots, LastReset, ReadySince, LastHeading, LastListed, IdSet, Finished;
    }
  }
}
