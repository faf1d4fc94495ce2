/** A projection installed end to end: what the server emits is what the Browser reassembles. */
module Installation {
  import opened Common
  import opened Tmux
  import opened Snapshot
  import opened Delivery
  import opened Control
  import opened Frames
  import opened Browser
  import Terminal
  import Base64

  // ---- Any accepted sequence ----

  /** The parsed snapshot frames of one pane, in order. */
  function Of(history: seq<Frame>, id: Bytes): (frames: seq<Frame>)
    ensures forall j :: 0 <= j < |frames| ==> frames[j].SnapshotFrame? && frames[j].pane == id
  {
    if history == [] then []
    else
      var last := history[|history| - 1];
      Of(history[..|history| - 1], id) + if last.SnapshotFrame? && last.pane == id then [last] else []
  }

  function DataOf(frames: seq<Frame>): Bytes
    requires forall j :: 0 <= j < |frames| ==> frames[j].SnapshotFrame?
  {
    if frames == [] then [] else DataOf(frames[..|frames| - 1]) + frames[|frames| - 1].data
  }

  /** What the Browser has put together for a pane. */
  function Reassembled(history: seq<Frame>, id: Bytes): Bytes
  {
    DataOf(Of(history, id))
  }

  function Total(history: seq<Frame>): nat
  {
    if history == [] then 0
    else
      var last := history[|history| - 1];
      Total(history[..|history| - 1]) + if last.SnapshotFrame? then |last.data| else 0
  }

  /** Chunks come as 0, 1, 2, ... and nothing follows a final one. */
  predicate Ordered(frames: seq<Frame>)
    requires forall j :: 0 <= j < |frames| ==> frames[j].SnapshotFrame?
  {
    forall j :: 0 <= j < |frames| ==> frames[j].index == j && (frames[j].final ==> j == |frames| - 1)
  }

  predicate Finished(frames: seq<Frame>)
    requires forall j :: 0 <= j < |frames| ==> frames[j].SnapshotFrame?
  {
    frames != [] && frames[|frames| - 1].final
  }

  /** The validator's counters, in terms of the snapshot frames accepted since the projection. */
  predicate PaneTracked(p: Pending, history: seq<Frame>, id: Bytes)
  {
    id in p.next && id in p.sizes && Ordered(Of(history, id)) && p.next[id] == |Of(history, id)|
    && (id in p.completed <==> Finished(Of(history, id)))
    && p.sizes[id] == |Reassembled(history, id)| <= MAX_SNAPSHOT
  }

  predicate Tracked(p: Pending, history: seq<Frame>)
  {
    p.completed <= p.ids && p.total == Total(history) <= MAX_PROJECTION
    && forall id :: id in p.ids ==> PaneTracked(p, history, id)
  }

  /** The snapshot frames accepted since the last projection. */
  function Noted(history: seq<Frame>, f: Frame): seq<Frame>
  {
    if f.ProjectionFrame? then [] else if f.SnapshotFrame? then history + [f] else history
  }

  lemma OfSnoc(history: seq<Frame>, f: Frame, id: Bytes)
    requires f.SnapshotFrame?
    ensures Of(history + [f], id) == if f.pane == id then Of(history, id) + [f] else Of(history, id)
    ensures Reassembled(history + [f], id) == if f.pane == id then Reassembled(history, id) + f.data
            else Reassembled(history, id)
    ensures Total(history + [f]) == Total(history) + |f.data|
  {
    assert (history + [f])[..|history|] == history;
    var own := Of(history, id);
    assert (own + [f])[..|own|] == own;
    assert own + [] == own;
  }

  lemma SnapshotKeepsPane(p: Pending, f: Frame, history: seq<Frame>, id: Bytes)
    requires f.SnapshotFrame? && InOrder(p, f) && WithinLimits(p, f) && PaneTracked(p, history, f.pane)
             && PaneTracked(p, history, id)
    ensures PaneTracked(Counted(p, f), history + [f], id)
  {
    hide Of, DataOf, Total;
    OfSnoc(history, f, id);
  }

  lemma FreshIsTracked(epoch: Uuid, ids: set<Bytes>)
    ensures Tracked(Fresh(epoch, ids), [])
  {
  }

  /** Every accepted frame keeps the counters exact. */
  lemma AcceptKeepsTracked(v: View, f: Frame, history: seq<Frame>)
    requires v.pending.Some? ==> Tracked(v.pending.value, history)
    requires Step(v, f).1 == Accept
    ensures var v' := Step(v, f).0; v'.pending.Some? ==> Tracked(v'.pending.value, Noted(history, f))
  {
    hide Of, DataOf, Reassembled, Ordered;
    if f.ProjectionFrame? {
      FreshIsTracked(f.epoch, IdSet(f.panes));
    }
    if f.SnapshotFrame? {
      var p := v.pending.value;
      var p' := Counted(p, f);
      hide PaneTracked;
      OfSnoc(history, f, f.pane);
      forall id | id in p'.ids ensures PaneTracked(p', history + [f], id) {
        SnapshotKeepsPane(p, f, history, id);
      }
    }
  }

  /** Accepted frames, the view they lead to, and the history they leave. */
  function Play(v: View, frames: seq<Frame>): Option<View>
    decreases |frames|
  {
    if frames == [] then Some(v)
    else
      var parsed := ParseFrame(frames[0]);
      if parsed.None? || Step(v, parsed.value).1 != Accept then None
      else Play(Step(v, parsed.value).0, frames[1..])
  }

  function Parsed(frames: seq<Frame>, history: seq<Frame>): seq<Frame>
    decreases |frames|
  {
    if frames == [] then history
    else
      var parsed := ParseFrame(frames[0]);
      Parsed(frames[1..], if parsed.None? then history else Noted(history, parsed.value))
  }

  lemma {:induction false} PlayTracked(v: View, frames: seq<Frame>, history: seq<Frame>)
    requires v.pending.Some? ==> Tracked(v.pending.value, history)
    requires Play(v, frames).Some?
    ensures var v' := Play(v, frames).value; v'.pending.Some? ==> Tracked(v'.pending.value, Parsed(frames, history))
    decreases |frames|
  {
    hide Step, ParseFrame, Tracked, Noted;
    if frames != [] {
      var f := ParseFrame(frames[0]).value;
      AcceptKeepsTracked(v, f, history);
      PlayTracked(Step(v, f).0, frames[1..], Noted(history, f));
    }
  }

  /**
    Whatever a server sends: when the Browser accepts Ready, every pane of the projection has a
    complete run of chunks, numbered from zero and ended by the only final one, within the limits.
   */
  lemma ReadyIsComplete(v: View, frames: seq<Frame>, id: Bytes)
    requires v.pending == None && Play(v, frames).Some?
    requires var v' := Play(v, frames).value;
             v'.pending.Some? && Step(v', PhaseFrame(Ready)).1 == Accept && id in v'.pending.value.ids
    ensures var own := Of(Parsed(frames, []), id);
            own != [] && forall j :: 0 <= j < |own| ==> own[j].index == j && (own[j].final <==> j == |own| - 1)
    ensures |Reassembled(Parsed(frames, []), id)| <= MAX_SNAPSHOT && Total(Parsed(frames, [])) <= MAX_PROJECTION
  {
    var p := Play(v, frames).value.pending.value;
    PlayTracked(v, frames, []);
    assert PaneTracked(p, Parsed(frames, []), id);
    SubsetOfEqualSize(p.completed, p.ids);
  }

  lemma SubsetOfEqualSize(a: set<Bytes>, b: set<Bytes>)
    requires a <= b && |a| == |b|
    ensures a == b
  {
    assert a + (b - a) == b;
    assert |b - a| == 0;
    assert b - a == {};
    assert forall x :: x in b ==> x in a;
  }

  // ---- What the server emits ----

  lemma {:induction false} PlaySplit(v: View, a: seq<Frame>, b: seq<Frame>)
    requires Play(v, a).Some?
    ensures Play(v, a + b) == Play(Play(v, a).value, b)
    decreases |a|
  {
    hide Step, ParseFrame;
    if a == [] {
      assert a + b == b;
    } else {
      assert (a + b)[0] == a[0] && (a + b)[1..] == a[1..] + b;
      PlaySplit(Step(v, ParseFrame(a[0]).value).0, a[1..], b);
    }
  }

  lemma PlayOne(v: View, f: Frame)
    requires ParseFrame(f).Some? && Step(v, ParseFrame(f).value).1 == Accept
    ensures Play(v, [f]) == Some(Step(v, ParseFrame(f).value).0)
  {
    hide Step, ParseFrame;
    assert [f][1..] == [];
  }

  lemma {:induction false} ParsedSplit(a: seq<Frame>, b: seq<Frame>, history: seq<Frame>)
    ensures Parsed(a + b, history) == Parsed(b, Parsed(a, history))
    decreases |a|
  {
    hide ParseFrame, Noted;
    if a == [] {
      assert a + b == b;
    } else {
      assert (a + b)[0] == a[0] && (a + b)[1..] == a[1..] + b;
      var parsed := ParseFrame(a[0]);
      ParsedSplit(a[1..], b, if parsed.None? then history else Noted(history, parsed.value));
    }
  }

  /** The chunks as sent: an empty snapshot still takes one frame. */
  function SentChunks(s: PaneSnapshot): (chunks: seq<Bytes>)
    ensures |chunks| >= 1
  {
    if Chunks(s.content) == [] then [[]] else Chunks(s.content)
  }

  function RawFrame(epoch: Uuid, s: PaneSnapshot, j: nat): Frame
    requires j < |SentChunks(s)|
  {
    SnapshotFrame(epoch, s.pane, j, j == |SentChunks(s)| - 1, SentChunks(s)[j])
  }

  lemma ChunkFits(s: PaneSnapshot, j: nat)
    requires |s.content| <= MAX_SNAPSHOT && j < |SentChunks(s)|
    ensures |SentChunks(s)[j]| <= MAX_CHUNK && j <= MAX_SNAPSHOT / MAX_CHUNK - 1
    ensures j < |SentChunks(s)| - 1 ==> SentChunks(s)[j] != []
  {
    ChunksJoin(s.content);
    hide Chunks;
  }

  lemma FrameCarries(epoch: Uuid, s: PaneSnapshot, j: nat)
    requires j < |SentChunks(s)|
    ensures |SnapshotFrames(epoch, s)| == |SentChunks(s)|
    ensures SnapshotFrames(epoch, s)[j]
            == SnapshotFrame(epoch, s.pane, j, j == |SentChunks(s)| - 1, Base64.Encode(SentChunks(s)[j]))
  {
    assert Base64.Encode([]) == [];
    hide Chunks, Base64.Encode;
  }

  /** Each frame of a snapshot parses back to its chunk. */
  lemma FrameParses(epoch: Uuid, s: PaneSnapshot, j: nat)
    requires IsPaneId(s.pane) && |s.content| <= MAX_SNAPSHOT && j < |SentChunks(s)|
    ensures |SnapshotFrames(epoch, s)| == |SentChunks(s)|
    ensures ParseFrame(SnapshotFrames(epoch, s)[j]) == Some(RawFrame(epoch, s, j))
    ensures !RawFrame(epoch, s, j).final ==> SentChunks(s)[j] != []
  {
    var chunk := SentChunks(s)[j];
    ChunkFits(s, j);
    FrameCarries(epoch, s, j);
    Base64.DecodeIffEncoded(Base64.Encode(chunk), chunk, MAX_CHUNK, true);
    hide Chunks, SentChunks, SnapshotFrames, Base64.Decode, Base64.Encode;
  }

  lemma {:induction false} JoinedSnoc(chunks: seq<Bytes>, j: nat)
    requires j < |chunks|
    ensures Frames.Joined(chunks[..j + 1]) == Frames.Joined(chunks[..j]) + chunks[j]
  {
    if j == 0 {
      assert chunks[..1][1..] == [];
    } else {
      JoinedSnoc(chunks[1..], j - 1);
      assert chunks[..j + 1][1..] == chunks[1..][..j];
      assert chunks[..j][1..] == chunks[1..][..j - 1];
    }
  }

  lemma {:induction false} JoinedGrows(chunks: seq<Bytes>, j: nat)
    requires j <= |chunks|
    ensures |Frames.Joined(chunks[..j])| <= |Frames.Joined(chunks)|
    decreases |chunks| - j
  {
    if j == |chunks| {
      assert chunks[..j] == chunks;
    } else {
      JoinedSnoc(chunks, j);
      JoinedGrows(chunks, j + 1);
    }
  }

  lemma SentJoin(s: PaneSnapshot)
    ensures Frames.Joined(SentChunks(s)) == s.content
  {
    ChunksJoin(s.content);
    if Chunks(s.content) == [] {
      assert SentChunks(s)[1..] == [];
    }
  }

  /** The validator after the first `j` chunks of a pane it had not heard of yet. */
  function Received(p: Pending, s: PaneSnapshot, j: nat): Pending
    requires j <= |SentChunks(s)|
  {
    var size := |Frames.Joined(SentChunks(s)[..j])|;
    p.(next := p.next[s.pane := j], sizes := p.sizes[s.pane := size], total := p.total + size,
       completed := if j == |SentChunks(s)| then p.completed + {s.pane} else p.completed)
  }

  /** The pane is expected and untouched, and its snapshot fits what is left. */
  predicate Awaits(p: Pending, epoch: Uuid, s: PaneSnapshot)
  {
    p.epoch == epoch && s.pane in p.ids && s.pane !in p.completed
    && s.pane in p.next && p.next[s.pane] == 0 && s.pane in p.sizes && p.sizes[s.pane] == 0
    && |s.content| <= MAX_SNAPSHOT && p.total + |s.content| <= MAX_PROJECTION && IsPaneId(s.pane)
  }

  lemma ReceivedFits(p: Pending, epoch: Uuid, s: PaneSnapshot, j: nat)
    requires Awaits(p, epoch, s) && j < |SentChunks(s)|
    ensures var q, f := Received(p, s, j), RawFrame(epoch, s, j);
            InOrder(q, f) && WithinLimits(q, f)
            && q.sizes[s.pane] + |f.data| == |Frames.Joined(SentChunks(s)[..j + 1])|
  {
    FrameParses(epoch, s, j);
    SentJoin(s);
    JoinedSnoc(SentChunks(s), j);
    JoinedGrows(SentChunks(s), j + 1);
    hide SentChunks, Frames.Joined, IsPaneId, ParseFrame, SnapshotFrames;
  }

  lemma ReceivedGrows(p: Pending, epoch: Uuid, s: PaneSnapshot, j: nat)
    requires Awaits(p, epoch, s) && j < |SentChunks(s)|
    ensures Counted(Received(p, s, j), RawFrame(epoch, s, j)) == Received(p, s, j + 1)
  {
    ReceivedFits(p, epoch, s, j);
    hide SentChunks, Frames.Joined, IsPaneId, InOrder, WithinLimits;
    var q, q', f := Received(p, s, j), Received(p, s, j + 1), RawFrame(epoch, s, j);
    assert q.next[s.pane := j + 1] == q'.next;
    assert q.sizes[s.pane := q.sizes[s.pane] + |f.data|] == q'.sizes;
  }

  lemma ChunkAccepted(v: View, epoch: Uuid, s: PaneSnapshot, j: nat)
    requires v.pending.Some? && Awaits(v.pending.value, epoch, s) && j < |SentChunks(s)|
    ensures Step(v.(pending := Some(Received(v.pending.value, s, j))), RawFrame(epoch, s, j))
            == (v.(pending := Some(Received(v.pending.value, s, j + 1))), Accept)
  {
    ReceivedFits(v.pending.value, epoch, s, j);
    ReceivedGrows(v.pending.value, epoch, s, j);
    hide SentChunks, Frames.Joined, Awaits, Received, InOrder, WithinLimits, Counted;
  }

  lemma {:induction false} ChunksAccepted(v: View, epoch: Uuid, s: PaneSnapshot, j: nat)
    requires v.pending.Some? && Awaits(v.pending.value, epoch, s) && j <= |SentChunks(s)|
    ensures |SnapshotFrames(epoch, s)| == |SentChunks(s)|
    ensures Play(v, SnapshotFrames(epoch, s)[..j]) == Some(v.(pending := Some(Received(v.pending.value, s, j))))
  {
    hide SentChunks, SnapshotFrames, ParseFrame, Step, Received, RawFrame;
    FrameParses(epoch, s, 0);
    if j == 0 {
      NothingReceived(v.pending.value, epoch, s);
      assert v.(pending := Some(v.pending.value)) == v;
    } else {
      var frames := SnapshotFrames(epoch, s);
      ChunksAccepted(v, epoch, s, j - 1);
      FrameParses(epoch, s, j - 1);
      ChunkAccepted(v, epoch, s, j - 1);
      assert frames[..j] == frames[..j - 1] + [frames[j - 1]];
      PlaySplit(v, frames[..j - 1], [frames[j - 1]]);
      PlayOne(v.(pending := Some(Received(v.pending.value, s, j - 1))), frames[j - 1]);
    }
  }

  lemma NothingReceived(p: Pending, epoch: Uuid, s: PaneSnapshot)
    requires Awaits(p, epoch, s)
    ensures Received(p, s, 0) == p
  {
    assert p.next[s.pane := 0] == p.next && p.sizes[s.pane := 0] == p.sizes;
  }

  /** The first `k` snapshots are complete and no other has begun. */
  predicate Between(p: Pending, epoch: Uuid, proj: Projection, k: nat)
    requires ProjectionOk(proj) && k <= |proj.panes|
  {
    p.epoch == epoch && p.ids == IdSet(proj.panes) && p.completed == IdSet(proj.panes[..k])
    && p.total == TotalSnapshot(proj.snapshots[..k])
    && forall i :: k <= i < |proj.panes| ==>
         var id := proj.panes[i].id;
         id in p.next && p.next[id] == 0 && id in p.sizes && p.sizes[id] == 0
  }

  lemma {:induction false} TotalGrows(snapshots: seq<PaneSnapshot>, k: nat)
    requires k <= |snapshots|
    ensures TotalSnapshot(snapshots[..k]) <= TotalSnapshot(snapshots)
    decreases |snapshots|
  {
    if k == |snapshots| {
      assert snapshots[..k] == snapshots;
    } else {
      TotalGrows(snapshots[..|snapshots| - 1], k);
      assert snapshots[..|snapshots| - 1][..k] == snapshots[..k];
    }
  }

  lemma ProjectionCounts(p: Projection)
    requires ProjectionOk(p)
    ensures |p.snapshots| == |p.panes| && TotalSnapshot(p.snapshots) <= MAX_PROJECTION
  {
  }

  lemma ProjectionSnapshot(p: Projection, k: nat, i: nat)
    requires ProjectionOk(p) && k < |p.panes| && i < |p.panes|
    ensures IsPaneId(p.snapshots[k].pane) && |p.snapshots[k].content| <= MAX_SNAPSHOT
    ensures p.snapshots[k].pane == p.panes[i].id <==> i == k
  {
    hide WindowsOk, WindowOk, ActiveWindows, ActiveCount, Cells, LabelsOk, Inside, IsPaneId;
    assert Ids(p.panes)[i] == p.panes[i].id && Ids(p.panes)[k] == p.panes[k].id;
    assert PaneOk(p.panes[k]);
  }

  lemma BetweenAwaits(p: Pending, epoch: Uuid, proj: Projection, k: nat)
    requires ProjectionOk(proj) && k < |proj.panes| && Between(p, epoch, proj, k)
    ensures Awaits(p, epoch, proj.snapshots[k])
    ensures TotalSnapshot(proj.snapshots[..k + 1]) == TotalSnapshot(proj.snapshots[..k]) + |proj.snapshots[k].content|
  {
    ProjectionCounts(proj);
    ProjectionSnapshot(proj, k, k);
    TotalGrows(proj.snapshots, k + 1);
    assert proj.snapshots[..k + 1][..k] == proj.snapshots[..k];
    hide ProjectionOk, IsPaneId;
    forall i | 0 <= i < k ensures proj.panes[..k][i].id != proj.panes[k].id {
      ProjectionSnapshot(proj, k, i);
    }
  }

  lemma BetweenNext(p: Pending, epoch: Uuid, proj: Projection, k: nat)
    requires ProjectionOk(proj) && k < |proj.panes| && Between(p, epoch, proj, k)
    ensures Between(Received(p, proj.snapshots[k], |SentChunks(proj.snapshots[k])|), epoch, proj, k + 1)
  {
    hide ProjectionOk, IsPaneId, SentChunks, TotalSnapshot, Frames.Joined, IdSet;
    ProjectionCounts(proj);
    ProjectionSnapshot(proj, k, k);
    var s := proj.snapshots[k];
    BetweenAwaits(p, epoch, proj, k);
    SentJoin(s);
    assert SentChunks(s)[..|SentChunks(s)|] == SentChunks(s);
    IdSetSnoc(proj.panes, k);
    forall i | k + 1 <= i < |proj.panes| ensures proj.panes[i].id != s.pane {
      ProjectionSnapshot(proj, k, i);
    }
  }

  lemma IdSetSnoc(panes: seq<Pane>, k: nat)
    requires k < |panes|
    ensures IdSet(panes[..k + 1]) == IdSet(panes[..k]) + {panes[k].id}
  {
    forall id | id in IdSet(panes[..k + 1]) ensures id in IdSet(panes[..k]) + {panes[k].id} {
      var i :| 0 <= i < k + 1 && panes[..k + 1][i].id == id;
      if i < k { assert panes[..k][i].id == id; }
    }
    forall id | id in IdSet(panes[..k]) + {panes[k].id} ensures id in IdSet(panes[..k + 1]) {
      if id == panes[k].id {
        assert panes[..k + 1][k].id == id;
      } else {
        var i :| 0 <= i < k && panes[..k][i].id == id;
        assert panes[..k + 1][i].id == id;
      }
    }
  }

  /** All snapshots are accepted, one pane after another. */
  lemma {:induction false} SnapshotsAccepted(v: View, epoch: Uuid, proj: Projection, k: nat)
    requires ProjectionOk(proj) && k <= |proj.panes| && v.pending == Some(Fresh(epoch, IdSet(proj.panes)))
    ensures var r := Play(v, AllSnapshots(epoch, proj.snapshots[..k]));
            r.Some? && r.value.pending.Some? && Between(r.value.pending.value, epoch, proj, k)
            && r.value == v.(pending := r.value.pending)
  {
    hide ProjectionOk, SnapshotFrames, Received, SentChunks, Step, ParseFrame, Awaits;
    if k == 0 {
      assert proj.snapshots[..0] == [] && proj.panes[..0] == [];
      assert AllSnapshots(epoch, []) == [];
      assert IdSet(proj.panes[..0]) == {};
    } else {
      hide Between, Fresh, IdSet;
      SnapshotsAccepted(v, epoch, proj, k - 1);
      ProjectionCounts(proj);
      var front, s := proj.snapshots[..k - 1], proj.snapshots[k - 1];
      AllSnoc(epoch, proj.snapshots, k - 1);
      var v1 := Play(v, AllSnapshots(epoch, front)).value;
      BetweenAwaits(v1.pending.value, epoch, proj, k - 1);
      ChunksAccepted(v1, epoch, s, |SentChunks(s)|);
      assert SnapshotFrames(epoch, s)[..|SentChunks(s)|] == SnapshotFrames(epoch, s);
      PlaySplit(v, AllSnapshots(epoch, front), SnapshotFrames(epoch, s));
      BetweenNext(v1.pending.value, epoch, proj, k - 1);
    }
  }

  // ---- The heading ----

  lemma {:induction false} DecimalIsEpoch(n: nat, k: nat)
    requires 1 <= n && k >= 1 && n < Pow10(k)
    ensures |Terminal.Decimal(n)| <= k && Terminal.Decimal(n)[0] != '0'
  {
    if n >= 10 {
      DecimalIsEpoch(n / 10, k - 1);
    }
  }

  function Pow10(k: nat): nat
  {
    if k == 0 then 1 else 10 * Pow10(k - 1)
  }

  lemma TextIsBrowserText(s: Bytes, max: nat)
    requires TextOk(s, max)
    ensures IsBrowserText(s, max)
  {
  }

  lemma PaneAccepted(p: Pane, w: Window)
    requires PaneOk(p) && Inside(p, w) && LabelsOk(p) && WindowOk(w)
    ensures AcceptsPane(p, w)
  {
    hide TextOk, IsBrowserText;
    TextIsBrowserText(p.title, MAX_TEXT);
    TextIsBrowserText(p.command, MAX_TEXT);
  }

  lemma WindowAccepted(w: Window)
    requires WindowOk(w)
    ensures AcceptsWindow(w)
  {
    TextIsBrowserText(w.name, MAX_NAME);
  }

  lemma SummaryAccepted(w: WindowSummary)
    requires SummaryOk(w)
    ensures AcceptsSummary(w)
  {
    TextIsBrowserText(w.name, MAX_NAME);
  }

  lemma ConnectionAccepted(connection: nat)
    requires connection <= I64_MAX
    ensures IsConnectionEpoch(Terminal.Decimal(connection)) <==> connection >= 1
  {
    if connection >= 1 {
      assert Pow10(5) == 100_000;
      assert Pow10(10) == 10_000_000_000;
      assert Pow10(15) == 1_000_000_000_000_000;
      assert Pow10(19) == 10_000_000_000_000_000_000;
      DecimalIsEpoch(connection, 19);
    }
  }

  /** The two parsers agree: the Browser accepts a hydrated projection exactly when its numbers are in its range. */
  lemma HeadingAccepted(p: Projection, connection: nat, epoch: Uuid, session: Bytes, created: int)
    requires ProjectionOk(p) && connection <= I64_MAX && IsNumericId(session, '$') && 1 <= created
    ensures AcceptsProjection(Heading(p, connection, epoch, session, created)) <==>
            connection >= 1 && created <= MAX_SAFE_INTEGER
  {
    hide ActiveWindows, ActiveCount, Cells, Distinct, TextOk;
    hide Terminal.Decimal, WindowOk, LabelsOk, Inside, PaneOk, SummaryOk;
    hide AcceptsPane, AcceptsWindow, AcceptsSummary, IsConnectionEpoch, TotalSnapshot;
    ConnectionAccepted(connection);
    WindowAccepted(p.window);
    forall i | 0 <= i < |p.windows| ensures AcceptsSummary(p.windows[i]) {
      SummaryAccepted(p.windows[i]);
    }
    forall i | 0 <= i < |p.panes| ensures AcceptsPane(p.panes[i], p.window) {
      PaneAccepted(p.panes[i], p.window);
    }
  }

  // ---- The whole installation ----

  /** The view once Ready is accepted. */
  function Installed(v: View, p: Projection, epoch: Uuid): View
  {
    View(None, v.connection, Some(epoch), Some(epoch), IdSet(p.panes))
  }

  lemma HeadingPlays(v: View, p: Projection, connection: nat, epoch: Uuid, session: Bytes, created: int)
    requires ProjectionOk(p) && 1 <= connection <= I64_MAX && IsNumericId(session, '$')
             && 1 <= created <= MAX_SAFE_INTEGER
    requires v.connection == Some(Terminal.Decimal(connection))
    ensures Play(v, [PhaseFrame(Connecting), Heading(p, connection, epoch, session, created)])
            == Some(View(Some(Fresh(epoch, IdSet(p.panes))), v.connection, Some(epoch), None, {}))
  {
    var f := Heading(p, connection, epoch, session, created);
    HeadingAccepted(p, connection, epoch, session, created);
    hide AcceptsProjection, ProjectionOk, Fresh, IdSet, Terminal.Decimal;
    var v1 := v.(pending := None, workspace := None, panes := {});
    PlayOne(v, PhaseFrame(Connecting));
    PlayOne(v1, f);
    PlaySplit(v, [PhaseFrame(Connecting)], [f]);
    assert [PhaseFrame(Connecting)] + [f] == [PhaseFrame(Connecting), f];
  }

  /** The Browser accepts every frame of an emitted projection and ends up showing it. */
  lemma InstallationAccepted(v: View, p: Projection, connection: nat, epoch: Uuid, session: Bytes, created: int)
    requires ProjectionOk(p) && 1 <= connection <= I64_MAX && IsNumericId(session, '$')
             && 1 <= created <= MAX_SAFE_INTEGER
    requires v.connection == Some(Terminal.Decimal(connection))
    ensures Play(v, Emitted(p, connection, epoch, session, created)) == Some(Installed(v, p, epoch))
  {
    var head := [PhaseFrame(Connecting), Heading(p, connection, epoch, session, created)];
    var body := AllSnapshots(epoch, p.snapshots);
    HeadingPlays(v, p, connection, epoch, session, created);
    var v1 := View(Some(Fresh(epoch, IdSet(p.panes))), v.connection, Some(epoch), None, {});
    ProjectionCounts(p);
    SnapshotsAccepted(v1, epoch, p, |p.panes|);
    assert p.snapshots[..|p.panes|] == p.snapshots && p.panes[..|p.panes|] == p.panes;
    hide ProjectionOk, AllSnapshots, Heading, Fresh, IdSet, ParseFrame, Terminal.Decimal, Step;
    var v2 := Play(v1, body).value;
    PlaySplit(v, head, body);
    ReadyAccepted(v2);
    PlaySplit(v, head + body, [PhaseFrame(Ready)]);
  }

  lemma ReadyAccepted(v: View)
    requires v.pending.Some? && v.pending.value.completed == v.pending.value.ids
    ensures Play(v, [PhaseFrame(Ready)])
            == Some(v.(pending := None, workspace := Some(v.pending.value.epoch), panes := v.pending.value.ids))
  {
    PlayOne(v, PhaseFrame(Ready));
  }

  // ---- Reassembly ----

  function RawFrames(epoch: Uuid, s: PaneSnapshot, j: nat): seq<Frame>
    requires j <= |SentChunks(s)|
  {
    if j == 0 then [] else RawFrames(epoch, s, j - 1) + [RawFrame(epoch, s, j - 1)]
  }

  lemma {:induction false} SnapshotParses(epoch: Uuid, s: PaneSnapshot, j: nat, history: seq<Frame>)
    requires IsPaneId(s.pane) && |s.content| <= MAX_SNAPSHOT && j <= |SentChunks(s)| == |SnapshotFrames(epoch, s)|
    ensures Parsed(SnapshotFrames(epoch, s)[..j], history) == history + RawFrames(epoch, s, j)
  {
    hide SentChunks, SnapshotFrames, ParseFrame, IsPaneId;
    if j == 0 {
      assert history + [] == history;
    } else {
      var frames := SnapshotFrames(epoch, s);
      SnapshotParses(epoch, s, j - 1, history);
      FrameParses(epoch, s, j - 1);
      assert frames[..j] == frames[..j - 1] + [frames[j - 1]];
      ParsedSplit(frames[..j - 1], [frames[j - 1]], history);
      assert [frames[j - 1]][1..] == [];
    }
  }

  function Share(s: PaneSnapshot, j: nat, id: Bytes): Bytes
    requires j <= |SentChunks(s)|
  {
    if id == s.pane then Frames.Joined(SentChunks(s)[..j]) else []
  }

  lemma ShareGrows(s: PaneSnapshot, j: nat, id: Bytes, before: Bytes)
    requires j < |SentChunks(s)|
    ensures before + Share(s, j + 1, id) == before + Share(s, j, id) + if id == s.pane then SentChunks(s)[j] else []
  {
    JoinedSnoc(SentChunks(s), j);
  }

  lemma {:induction false} SnapshotReassembles(epoch: Uuid, s: PaneSnapshot, j: nat, history: seq<Frame>, id: Bytes)
    requires j <= |SentChunks(s)|
    ensures Reassembled(history + RawFrames(epoch, s, j), id) == Reassembled(history, id) + Share(s, j, id)
  {
    hide SentChunks, Reassembled, RawFrame, Frames.Joined;
    if j == 0 {
      NoShare(s, id);
      assert history + [] == history;
    } else {
      hide Share;
      SnapshotReassembles(epoch, s, j - 1, history, id);
      var before, f := history + RawFrames(epoch, s, j - 1), RawFrame(epoch, s, j - 1);
      assert history + RawFrames(epoch, s, j) == before + [f];
      RawFrameIs(epoch, s, j - 1);
      ReassembledSnoc(before, f, id);
      ShareGrows(s, j - 1, id, Reassembled(history, id));
    }
  }

  lemma NoShare(s: PaneSnapshot, id: Bytes)
    ensures Share(s, 0, id) == []
  {
  }

  lemma RawFrameIs(epoch: Uuid, s: PaneSnapshot, j: nat)
    requires j < |SentChunks(s)|
    ensures var f := RawFrame(epoch, s, j); f.SnapshotFrame? && f.pane == s.pane && f.data == SentChunks(s)[j]
  {
  }

  lemma ReassembledSnoc(history: seq<Frame>, f: Frame, id: Bytes)
    requires f.SnapshotFrame?
    ensures Reassembled(history + [f], id) == Reassembled(history, id) + if f.pane == id then f.data else []
  {
    OfSnoc(history, f, id);
  }

  /** One whole snapshot, sent after anything else, adds its content to its pane alone. */
  lemma SnapshotAdds(before: seq<Frame>, epoch: Uuid, s: PaneSnapshot, id: Bytes)
    requires IsPaneId(s.pane) && |s.content| <= MAX_SNAPSHOT
    ensures Reassembled(Parsed(before + SnapshotFrames(epoch, s), []), id)
            == Reassembled(Parsed(before, []), id) + if id == s.pane then s.content else []
  {
    hide Reassembled, SentChunks, SnapshotFrames, Parsed, IsPaneId, ParseFrame, RawFrame;
    var history := Parsed(before, []);
    ParsedSplit(before, SnapshotFrames(epoch, s), []);
    FrameParses(epoch, s, 0);
    SnapshotParses(epoch, s, |SentChunks(s)|, history);
    assert SnapshotFrames(epoch, s)[..|SentChunks(s)|] == SnapshotFrames(epoch, s);
    SnapshotReassembles(epoch, s, |SentChunks(s)|, history, id);
    assert SentChunks(s)[..|SentChunks(s)|] == SentChunks(s);
    SentJoin(s);
  }

  /** Once `k` snapshots have been sent, exactly the first `k` panes are whole. */
  lemma {:induction false} BodyReassembles(epoch: Uuid, p: Projection, k: nat, i: nat)
    requires ProjectionOk(p) && k <= |p.panes| && i < |p.panes|
    ensures |p.snapshots| == |p.panes|
    ensures Reassembled(Parsed(AllSnapshots(epoch, p.snapshots[..k]), []), p.panes[i].id)
            == if i < k then p.snapshots[i].content else []
  {
    hide ProjectionOk, SnapshotFrames, IsPaneId, Reassembled, Parsed, AllSnapshots;
    ProjectionCounts(p);
    if k == 0 {
      NothingReassembled(epoch, p.panes[i].id);
      assert p.snapshots[..0] == [];
    } else {
      BodyReassembles(epoch, p, k - 1, i);
      ProjectionSnapshot(p, k - 1, i);
      AllSnoc(epoch, p.snapshots, k - 1);
      SnapshotAdds(AllSnapshots(epoch, p.snapshots[..k - 1]), epoch, p.snapshots[k - 1], p.panes[i].id);
    }
  }

  lemma NothingReassembled(epoch: Uuid, id: Bytes)
    ensures Reassembled(Parsed(AllSnapshots(epoch, []), []), id) == []
  {
  }

  lemma AllSnoc(epoch: Uuid, snapshots: seq<PaneSnapshot>, k: nat)
    requires k < |snapshots|
    ensures AllSnapshots(epoch, snapshots[..k + 1]) == AllSnapshots(epoch, snapshots[..k])
            + SnapshotFrames(epoch, snapshots[k])
  {
    hide SnapshotFrames;
    assert snapshots[..k + 1][..k] == snapshots[..k];
  }

  lemma FramingParses(p: Projection, connection: nat, epoch: Uuid, session: Bytes, created: int, body: seq<Frame>)
    ensures Parsed([PhaseFrame(Connecting), Heading(p, connection, epoch, session, created)] + body
            + [PhaseFrame(Ready)], [])
            == Parsed(body, [])
  {
    var f := Heading(p, connection, epoch, session, created);
    var head := [PhaseFrame(Connecting), f];
    hide AcceptsProjection;
    assert head[1..] == [f] && [f][1..] == [];
    assert Parsed([f], []) == [];
    assert Parsed(head, []) == Parsed([f], []);
    ParsedSplit(head, body, []);
    ParsedSplit(head + body, [PhaseFrame(Ready)], []);
    assert [PhaseFrame(Ready)][1..] == [];
  }

  /** At Ready, what the Browser put together for each pane is that pane's snapshot. */
  lemma InstallationReassembles(p: Projection, connection: nat, epoch: Uuid, session: Bytes, created: int, i: nat)
    requires ProjectionOk(p) && i < |p.panes|
    ensures Reassembled(Parsed(Emitted(p, connection, epoch, session, created), []), p.panes[i].id)
            == p.snapshots[i].content
  {
    BodyReassembles(epoch, p, |p.panes|, i);
    hide ProjectionOk, AllSnapshots, Reassembled, Parsed, Heading;
    assert p.snapshots[..|p.panes|] == p.snapshots;
    FramingParses(p, connection, epoch, session, created, AllSnapshots(epoch, p.snapshots));
  }

  // ---- Live output ----

  /** The output the Browser decodes for a pane from accepted output frames. */
  function LiveOutput(frames: seq<Frame>, id: Bytes): Bytes
  {
    if frames == [] then []
    else
      var parsed := ParseFrame(frames[|frames| - 1]);
      LiveOutput(frames[..|frames| - 1], id)
      + if parsed.Some? && parsed.value.OutputFrame? && parsed.value.pane == id then parsed.value.data else []
  }

  lemma OutputParses(epoch: Uuid, pane: Bytes, data: Bytes)
    requires IsPaneId(pane) && |data| <= MAX_CHUNK
    ensures ParseFrame(OutputFrame(epoch, pane, Base64.Encode(data))) == Some(OutputFrame(epoch, pane, data))
  {
    Base64.DecodeIffEncoded(Base64.Encode(data), data, MAX_CHUNK, true);
    hide Base64.Encode, Base64.Decode;
  }

  /** One more event: its frame, if there is one, is accepted and adds its data to its pane. */
  lemma OutputAccepted(v: View, epoch: Uuid, front: seq<Frame>, pane: Bytes, data: Bytes, id: Bytes)
    requires v.workspace == Some(epoch) && pane in v.panes && IsPaneId(pane) && |data| <= MAX_CHUNK
    requires Play(v, front) == Some(v)
    ensures var frames := front + [OutputFrame(epoch, pane, Base64.Encode(data))];
            Play(v, frames) == Some(v) && LiveOutput(frames, id) == LiveOutput(front, id) + if pane == id then data
              else []
  {
    var f := OutputFrame(epoch, pane, Base64.Encode(data));
    OutputParses(epoch, pane, data);
    PlayOne(v, f);
    PlaySplit(v, front, [f]);
    hide ParseFrame, Play;
    assert (front + [f])[..|front|] == front;
  }

  /** Forwarded output is accepted frame by frame and decodes to what was queued for each pane. */
  lemma {:induction false} OutputsAccepted(v: View, epoch: Uuid, visible: set<Bytes>, events: seq<Event>, id: Bytes)
    requires v.workspace == Some(epoch) && visible <= v.panes && Sized(events) && id in visible
    requires forall pane :: pane in visible ==> IsPaneId(pane)
    ensures Play(v, OutputFrames(epoch, visible, events)) == Some(v)
    ensures LiveOutput(OutputFrames(epoch, visible, events), id) == Queued(events, id)
    decreases |events|
  {
    hide ParseFrame, Step, Base64.Encode, IsPaneId;
    if events != [] {
      var front, last := events[..|events| - 1], events[|events| - 1];
      OutputsAccepted(v, epoch, visible, front, id);
      var frames := OutputFrames(epoch, visible, front);
      if last.OutputEvent? && last.pane in visible {
        OutputAccepted(v, epoch, frames, last.pane, last.data, id);
      } else {
        assert frames + [] == frames;
      }
    }
  }

  lemma VisiblePanes(p: Projection, i: nat)
    requires ProjectionOk(p) && i < |p.panes|
    ensures p.panes[i].id in IdSet(p.panes) && forall pane :: pane in IdSet(p.panes) ==> IsPaneId(pane)
  {
    hide WindowsOk, WindowOk, ActiveWindows, ActiveCount, Cells, LabelsOk, Inside, IsPaneId, Distinct;
    forall k | 0 <= k < |p.panes| ensures IsPaneId(p.panes[k].id) {
      assert PaneOk(p.panes[k]);
    }
  }

  /**
    End to end. A Browser holding the connection epoch accepts everything: the installation and the
    output forwarded after it. A terminal of the pane's size fed what the Browser put together shows
    the captured screen exactly when the pane is restorable, and the output it is fed next is exactly
    what the control connection delivered for the pane after its capture.
   */
  lemma ScreenIsRestored(stream: seq<Bytes>, c: Cut, pos: nat, events: seq<Event>, p: Projection, v: View,
                         connection: nat, epoch: Uuid, session: Bytes, created: int, i: nat, t: Terminal.Display)
    requires ProjectionOk(p) && i < |p.panes| && Sized(events)
    requires CutOver(stream, c, pos, events, p.window, p.panes[i], p.snapshots[i])
    requires 1 <= connection <= I64_MAX && IsNumericId(session, '$') && 1 <= created <= MAX_SAFE_INTEGER
    requires v.connection == Some(Terminal.Decimal(connection))
    requires Terminal.Valid(t) && t.width == p.panes[i].width && t.height == p.panes[i].height
    requires Fits(Payload(stream[c.start..c.cut]), t.width, t.height)
    ensures var pane, lines := p.panes[i], Payload(stream[c.start..c.cut]);
            var installed := Emitted(p, connection, epoch, session, created);
            var live := OutputFrames(epoch, IdSet(p.panes), events);
            var shown := Reassembled(Parsed(installed, []), pane.id);
            Play(v, installed + live) == Some(Installed(v, p, epoch))
            && (Restored(Terminal.Run(t, shown), lines, pane) <==> Restorable(pane))
            && LiveOutput(live, pane.id) == Delivered(stream[c.cut..pos], pane.id)
            && Terminal.Run(t, shown + LiveOutput(live, pane.id))
               == Terminal.Run(Terminal.Run(t, shown), Delivered(stream[c.cut..pos], pane.id))
  {
    hide ProjectionOk, Reassembled, Parsed, Emitted, Terminal.Run, Render, Restored, Restorable, Payload, Queued;
    hide Delivered, Play, IdSet, Terminal.Decimal, IsNumericId, Sized, OutputFrames, LiveOutput, IsPaneId;
    var id := p.panes[i].id;
    var installed, live := Emitted(p, connection, epoch, session, created), OutputFrames(epoch, IdSet(p.panes), events);
    ProjectionCounts(p);
    InstallationAccepted(v, p, connection, epoch, session, created);
    VisiblePanes(p, i);
    OutputsAccepted(Installed(v, p, epoch), epoch, IdSet(p.panes), events, id);
    PlaySplit(v, installed, live);
    InstallationReassembles(p, connection, epoch, session, created, i);
    SnapshotRestores(t, Payload(stream[c.start..c.cut]), p.panes[i]);
    Terminal.RunSplit(t, p.snapshots[i].content, LiveOutput(live, id));
  }
}
