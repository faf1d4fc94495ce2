/** The Browser's own frame parser and sequence validator. */
module Browser {
  import opened Common
  import opened Tmux
  import opened Snapshot
  import opened Delivery
  import opened Control
  import opened Frames
  import Base64

  const MAX_SAFE_INTEGER: int := 9_007_199_254_740_991

  // ---- Parsing ----

  predicate IsConnectionEpoch(s: Bytes)
  {
    1 <= |s| <= 19 && AllDigits(s) && s[0] != '0'
  }

  predicate IsBrowserId(s: Bytes, prefix: Byte)
  {
    2 <= |s| <= 32 && s[0] == prefix && AllDigits(s[1..])
  }

  predicate IsBrowserText(s: Bytes, max: nat)
  {
    |s| <= max && forall i :: 0 <= i < |s| ==> s[i] as int >= 32 && s[i] as int != 127
  }

  predicate AcceptsWindow(w: Window)
  {
    IsBrowserId(w.id, '@') && IsBrowserText(w.name, MAX_NAME) && 1 <= w.width <= MAX_DIMENSION
      && 1 <= w.height <= MAX_DIMENSION
    && w.width * w.height <= MAX_GRID_CELLS && w.layout != [] && IsBrowserText(w.layout, MAX_LAYOUT)
  }

  predicate AcceptsSummary(w: WindowSummary)
  {
    IsBrowserId(w.id, '@') && IsBrowserText(w.name, MAX_NAME)
  }

  predicate AcceptsPane(p: Pane, w: Window)
  {
    IsBrowserId(p.id, '%') && 1 <= p.width <= MAX_DIMENSION && 1 <= p.height <= MAX_DIMENSION
    && p.left <= MAX_DIMENSION - 1 && p.top <= MAX_DIMENSION - 1
    && p.left + p.width <= w.width && p.top + p.height <= w.height
    && IsBrowserText(p.title, MAX_TEXT) && IsBrowserText(p.command, MAX_TEXT)
  }

  predicate AcceptsFields(f: Frame)
    requires f.ProjectionFrame?
  {
    IsConnectionEpoch(f.connection) && IsBrowserId(f.session, '$') && 1 <= f.created <= MAX_SAFE_INTEGER
    && 1 <= |f.windows| <= MAX_WINDOWS && AcceptsWindow(f.window) && 1 <= |f.panes| <= MAX_PANES
  }

  /** What the parser demands of a projection. */
  predicate AcceptsProjection(f: Frame)
    requires f.ProjectionFrame?
  {
    AcceptsFields(f)
    && (forall i :: 0 <= i < |f.windows| ==> AcceptsSummary(f.windows[i]))
    && (forall i, j :: 0 <= i < j < |f.windows| ==> f.windows[i].id != f.windows[j].id)
    && |ActiveWindows(f.windows)| == 1 && ActiveWindows(f.windows)[0].id == f.window.id
    && (forall i :: 0 <= i < |f.panes| ==> AcceptsPane(f.panes[i], f.window))
    && Distinct(Ids(f.panes)) && ActiveCount(f.panes) == 1 && Cells(f.panes) <= MAX_GRID_CELLS
  }

  method ParseSummaries(windows: seq<WindowSummary>) returns (ok: bool, active: nat)
    ensures ok <==> (forall i :: 0 <= i < |windows| ==> AcceptsSummary(windows[i]))
                    && forall i, j :: 0 <= i < j < |windows| ==> windows[i].id != windows[j].id
    ensures ok ==> active == |ActiveWindows(windows)|
  {
    hide AcceptsSummary;
    var seen: set<Bytes> := {};
    active := 0;
    for k := 0 to |windows|
      invariant forall i :: 0 <= i < k ==> AcceptsSummary(windows[i])
      invariant forall i, j :: 0 <= i < j < k ==> windows[i].id != windows[j].id
      invariant forall id :: id in seen <==> exists i :: 0 <= i < k && windows[i].id == id
      invariant active == |ActiveWindows(windows[..k])|
    {
      assert windows[..k + 1][..k] == windows[..k];
      if !AcceptsSummary(windows[k]) || windows[k].id in seen {
        return false, active;
      }
      seen := seen + {windows[k].id};
      if windows[k].active {
        active := active + 1;
      }
    }
    assert windows[..|windows|] == windows;
    return true, active;
  }

  method ParsePanes(panes: seq<Pane>, window: Window) returns (ok: bool, active: nat, cells: nat)
    ensures ok <==> (forall i :: 0 <= i < |panes| ==> AcceptsPane(panes[i], window)) && Distinct(Ids(panes))
    ensures ok ==> active == ActiveCount(panes) && cells == Cells(panes)
  {
    hide AcceptsPane;
    var seen: set<Bytes> := {};
    active, cells := 0, 0;
    for k := 0 to |panes|
      invariant forall i :: 0 <= i < k ==> AcceptsPane(panes[i], window)
      invariant forall i, j :: 0 <= i < j < k ==> panes[i].id != panes[j].id
      invariant forall id :: id in seen <==> exists i :: 0 <= i < k && panes[i].id == id
      invariant active == ActiveCount(panes[..k]) && cells == Cells(panes[..k])
    {
      assert panes[..k + 1][..k] == panes[..k];
      if !AcceptsPane(panes[k], window) || panes[k].id in seen {
        if panes[k].id in seen {
          var i :| 0 <= i < k && panes[i].id == panes[k].id;
          assert Ids(panes)[i] == Ids(panes)[k];
        }
        return false, active, cells;
      }
      seen := seen + {panes[k].id};
      if panes[k].active {
        active := active + 1;
      }
      cells := cells + panes[k].width * panes[k].height;
    }
    assert panes[..|panes|] == panes;
    return true, active, cells;
  }

  method ParseProjection(f: Frame) returns (ok: bool)
    requires f.ProjectionFrame?
    ensures ok <==> AcceptsProjection(f)
  {
    hide AcceptsFields, AcceptsSummary, AcceptsPane, Distinct, Cells, ActiveCount;
    if !AcceptsFields(f) {
      return false;
    }
    var summaries, active := ParseSummaries(f.windows);
    if !summaries {
      return false;
    }
    ActiveMember(f.windows, f.window.id);
    if active != 1 || !(exists w :: w in f.windows && w.active && w.id == f.window.id) {
      return false;
    }
    var panes, activePanes, cells := ParsePanes(f.panes, f.window);
    return panes && activePanes == 1 && cells <= MAX_GRID_CELLS;
  }

  lemma {:induction false} ActiveMembers(windows: seq<WindowSummary>, w: WindowSummary)
    ensures w in ActiveWindows(windows) <==> w in windows && w.active
  {
    if windows != [] {
      var front, last := windows[..|windows| - 1], windows[|windows| - 1];
      ActiveMembers(front, w);
      assert windows == front + [last];
    }
  }

  lemma ActiveMember(windows: seq<WindowSummary>, id: Bytes)
    ensures |ActiveWindows(windows)| == 1 ==>
              (ActiveWindows(windows)[0].id == id <==> exists w :: w in windows && w.active && w.id == id)
  {
    if |ActiveWindows(windows)| == 1 {
      var only := ActiveWindows(windows)[0];
      ActiveMembers(windows, only);
      forall w | w in windows && w.active ensures w == only {
        ActiveMembers(windows, w);
      }
    }
  }

  /** The frame as the validator sees it, its data decoded. */
  function ParseFrame(f: Frame): Option<Frame>
  {
    match f
    case ProjectionFrame(_, _, _, _, _, _, _) => if AcceptsProjection(f) then Some(f) else None
    case SnapshotFrame(epoch, pane, index, final, data) =>
      var decoded := Base64.Decode(data, MAX_CHUNK, true);
      if !IsBrowserId(pane, '%') || index > MAX_SNAPSHOT / MAX_CHUNK - 1 || decoded.None? then None
      else Some(SnapshotFrame(epoch, pane, index, final, decoded.value))
    case OutputFrame(epoch, pane, data) =>
      var decoded := Base64.Decode(data, MAX_CHUNK, true);
      if !IsBrowserId(pane, '%') || decoded.None? then None else Some(OutputFrame(epoch, pane, decoded.value))
    case SessionList(connection, _) => if IsConnectionEpoch(connection) then Some(f) else None
    case WriterState(connection, _) => if IsConnectionEpoch(connection) then Some(f) else None
    case PhaseFrame(_) => Some(f)
  }

  // ---- Sequence ----

  datatype Pending = Pending(
    epoch: Uuid, ids: set<Bytes>, next: map<Bytes, nat>, completed: set<Bytes>, sizes: map<Bytes, nat>, total: nat)

  datatype View = View(
    pending: Option<Pending>, connection: Option<Bytes>, attachment: Option<Uuid>, workspace: Option<Uuid>,
      panes: set<Bytes>)

  datatype Verdict = Accept | Ignore | Reject

  function Count(m: map<Bytes, nat>, id: Bytes): nat
  {
    if id in m then m[id] else 0
  }

  function IdSet(panes: seq<Pane>): set<Bytes>
  {
    set i | 0 <= i < |panes| :: panes[i].id
  }

  function Fresh(epoch: Uuid, ids: set<Bytes>): Pending
  {
    Pending(epoch, ids, map id | id in ids :: 0, {}, map id | id in ids :: 0, 0)
  }

  /** The checks on one snapshot frame that can be made before counting its bytes. */
  predicate InOrder(p: Pending, f: Frame)
    requires f.SnapshotFrame?
  {
    f.epoch == p.epoch && f.pane in p.ids && f.pane !in p.completed
    && f.pane in p.next && f.index == p.next[f.pane] && (f.final || f.data != [])
  }

  function Counted(p: Pending, f: Frame): Pending
    requires f.SnapshotFrame?
  {
    p.(total := p.total + |f.data|, sizes := p.sizes[f.pane := Count(p.sizes, f.pane) + |f.data|],
       next := p.next[f.pane := f.index + 1],
       completed := if f.final then p.completed + {f.pane} else p.completed)
  }

  predicate WithinLimits(p: Pending, f: Frame)
    requires f.SnapshotFrame?
  {
    Count(p.sizes, f.pane) + |f.data| <= MAX_SNAPSHOT && p.total + |f.data| <= MAX_PROJECTION
  }

  /** What one frame does to the validator, and its verdict. */
  function Step(v: View, f: Frame): (View, Verdict)
  {
    match f
    case PhaseFrame(phase) =>
      if phase != Ready then (v.(pending := None, workspace := None, panes := {}), Accept)
      else if v.pending.None? || |v.pending.value.completed| != |v.pending.value.ids| then (v, Reject)
      else (v.(pending := None, workspace := Some(v.pending.value.epoch), panes := v.pending.value.ids), Accept)
    case SessionList(connection, selection) => (View(None, Some(connection), Some(selection), None, {}), Accept)
    case WriterState(connection, attachment) =>
      (v, if Some(connection) == v.connection && Some(attachment) == v.attachment then Accept else Ignore)
    case ProjectionFrame(connection, epoch, _, _, _, _, panes) =>
      if Some(connection) != v.connection then (v, Reject)
      else (v.(attachment := Some(epoch), pending := Some(Fresh(epoch, IdSet(panes))), workspace := None, panes := {}),
        Accept)
    case SnapshotFrame(_, _, _, _, data) =>
      if v.pending.None? || !InOrder(v.pending.value, f) then (v, Reject)
      else if !WithinLimits(v.pending.value, f) then
        (v.(pending := Some(v.pending.value.(total := v.pending.value.total + |data|))), Reject)
      else (v.(pending := Some(Counted(v.pending.value, f))), Accept)
    case OutputFrame(epoch, pane, _) => (v, if Some(epoch) == v.workspace && pane in v.panes then Accept else Ignore)
  }

  class Session {
    var pending: Option<Pending>
    var connection: Option<Bytes>
    var attachment: Option<Uuid>
    var workspace: Option<Uuid>
    var panes: set<Bytes>

    function State(): View
      reads this
    {
      View(pending, connection, attachment, workspace, panes)
    }

    constructor ()
      ensures State() == View(None, None, None, None, {})
    {
      pending, connection, attachment, workspace, panes := None, None, None, None, {};
    }

    method ValidateSequence(f: Frame) returns (verdict: Verdict)
      modifies this
      ensures (State(), verdict) == Step(old(State()), f)
    {
      match f
      case PhaseFrame(phase) =>
        if phase == Connecting || phase == Selecting || phase == Failed {
          pending, workspace, panes := None, None, {};
        } else {
          if pending == None || |pending.value.completed| != |pending.value.ids| {
            return Reject;
          }
          workspace, panes := Some(pending.value.epoch), pending.value.ids;
          pending := None;
        }
        return Accept;
      case SessionList(c, selection) =>
        pending, connection, attachment, workspace, panes := None, Some(c), Some(selection), None, {};
        return Accept;
      case WriterState(c, a) =>
        return if Some(c) == connection && Some(a) == attachment then Accept else Ignore;
      case ProjectionFrame(c, epoch, _, _, _, _, shown) =>
        if Some(c) != connection {
          return Reject;
        }
        attachment := Some(epoch);
        pending := Some(Fresh(epoch, IdSet(shown)));
        workspace, panes := None, {};
        return Accept;
      case SnapshotFrame(_, pane, index, final, data) =>
        if pending == None || !InOrder(pending.value, f) {
          return Reject;
        }
        var p := pending.value;
        var size := Count(p.sizes, pane) + |data|;
        p := p.(total := p.total + |data|);
        pending := Some(p);
        if size > MAX_SNAPSHOT || p.total > MAX_PROJECTION {
          return Reject;
        }
        p := p.(sizes := p.sizes[pane := size], next := p.next[pane := index + 1]);
        if final {
          p := p.(completed := p.completed + {pane});
        }
        pending := Some(p);
        return Accept;
      case OutputFrame(epoch, pane, _) =>
        return if Some(epoch) == workspace && pane in panes then Accept else Ignore;
    }
  }
}
