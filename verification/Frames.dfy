/** Attachment frames: how the server emits a projection. */
module Frames {
  import opened Common
  import opened Tmux
  import opened Snapshot
  import opened Delivery
  import opened Control
  import Terminal
  import Base64

  const MAX_FRAME: nat := 32_768

  datatype Phase = Connecting | Selecting | Ready | Failed

  /** A frame on the wire; `data` is base64url text there, and raw bytes once parsed. */
  datatype Frame =
    | PhaseFrame(phase: Phase)
    | SessionList(connection: Bytes, selection: Uuid)
    | WriterState(connection: Bytes, attachment: Uuid)
    | ProjectionFrame(connection: Bytes, epoch: Uuid, session: Bytes, created: int,
                      windows: seq<WindowSummary>, window: Window, panes: seq<Pane>)
    | SnapshotFrame(epoch: Uuid, pane: Bytes, index: nat, final: bool, data: Bytes)
    | OutputFrame(epoch: Uuid, pane: Bytes, data: Bytes)

  function SnapshotFrames(epoch: Uuid, s: PaneSnapshot): (frames: seq<Frame>)
    ensures |frames| >= 1
  {
    var chunks := Chunks(s.content);
    if chunks == [] then [SnapshotFrame(epoch, s.pane, 0, true, [])]
    else
      seq(|chunks|, j requires 0 <= j < |chunks| =>
        SnapshotFrame(epoch, s.pane, j, j == |chunks| - 1, Base64.Encode(chunks[j])))
  }

  function AllSnapshots(epoch: Uuid, snapshots: seq<PaneSnapshot>): seq<Frame>
  {
    if snapshots == [] then []
    else AllSnapshots(epoch, snapshots[..|snapshots| - 1]) + SnapshotFrames(epoch, snapshots[|snapshots| - 1])
  }

  function Heading(p: Projection, connection: nat, epoch: Uuid, session: Bytes, created: int): Frame
  {
    ProjectionFrame(Terminal.Decimal(connection), epoch, session, created, p.windows, p.window, p.panes)
  }

  function Emitted(p: Projection, connection: nat, epoch: Uuid, session: Bytes, created: int): seq<Frame>
  {
    [PhaseFrame(Connecting), Heading(p, connection, epoch, session, created)]
    + AllSnapshots(epoch, p.snapshots) + [PhaseFrame(Ready)]
  }

  lemma FrameAt(epoch: Uuid, s: PaneSnapshot, j: nat)
    requires j < |Chunks(s.content)|
    ensures var frames := SnapshotFrames(epoch, s);
            |frames| == |Chunks(s.content)| && frames[..j + 1] == frames[..j] + [frames[j]]
            && frames[j] == SnapshotFrame(epoch, s.pane, j, j == |frames| - 1, Base64.Encode(Chunks(s.content)[j]))
  {
    hide Base64.Encode, Chunks;
  }

  /** The frames that forward queued output of visible panes. */
  function OutputFrames(epoch: Uuid, visible: set<Bytes>, events: seq<Event>): seq<Frame>
  {
    if events == [] then []
    else
      var last := events[|events| - 1];
      OutputFrames(epoch, visible, events[..|events| - 1])
      + if last.OutputEvent? && last.pane in visible then [OutputFrame(epoch, last.pane, Base64.Encode(last.data))]
        else []
  }

  // ---- Chunks ----

  function Joined(chunks: seq<Bytes>): Bytes
  {
    if chunks == [] then [] else chunks[0] + Joined(chunks[1..])
  }

  lemma {:induction false} ChunksJoin(data: Bytes)
    ensures Joined(Chunks(data)) == data
    ensures |Chunks(data)| <= (|data| + MAX_CHUNK - 1) / MAX_CHUNK
    decreases |data|
  {
    if |data| > MAX_CHUNK {
      ChunksJoin(data[MAX_CHUNK..]);
      assert Chunks(data)[1..] == Chunks(data[MAX_CHUNK..]);
    } else if data != [] {
      assert [data][1..] == [];
    }
  }

  // ---- Frame size ----

  const TYPE_KEY: Bytes := "{\"type\":\"workspace.pane_snapshot\""
  const EPOCH_KEY: Bytes := ",\"workspace_epoch\":\""
  const PANE_KEY: Bytes := "\",\"pane_id\":\""
  const INDEX_KEY: Bytes := "\",\"chunk_index\":"
  const FINAL_KEY: Bytes := ",\"final\":"
  const DATA_KEY: Bytes := ",\"data_base64\":\""

  /** The text of a snapshot frame, `epoch` being the hyphenated identifier. No member needs escaping. */
  function SnapshotText(epoch: Bytes, f: Frame): Bytes
    requires f.SnapshotFrame?
  {
    TYPE_KEY + EPOCH_KEY + epoch + PANE_KEY + f.pane + INDEX_KEY + Terminal.Decimal(f.index)
    + FINAL_KEY + (if f.final then "true" else "false") + DATA_KEY + f.data + "\"}"
  }

  /** Every snapshot frame fits the frame bound. */
  lemma SnapshotFrameFits(epoch: Bytes, uuid: Uuid, s: PaneSnapshot, j: nat)
    requires |epoch| == 36 && IsPaneId(s.pane) && |s.content| <= MAX_SNAPSHOT && j < |SnapshotFrames(uuid, s)|
    ensures |SnapshotText(epoch, SnapshotFrames(uuid, s)[j])| <= MAX_FRAME
  {
    var f := SnapshotFrames(uuid, s)[j];
    ChunksJoin(s.content);
    assert |Terminal.Decimal(f.index)| <= 2 by {
      assert f.index < 16;
      assert f.index < 10 ==> |Terminal.Decimal(f.index)| == 1;
      assert |Terminal.Decimal(f.index / 10)| == 1;
    }
    assert |f.data| <= 21_846 by {
      if Chunks(s.content) != [] {
        Base64.EncodeLength(Chunks(s.content)[j]);
      }
    }
  }

  const OUTPUT_TYPE: Bytes := "{\"type\":\"workspace.output\""

  /** The text of an output frame. */
  function OutputText(epoch: Bytes, f: Frame): Bytes
    requires f.OutputFrame?
  {
    OUTPUT_TYPE + EPOCH_KEY + epoch + PANE_KEY + f.pane + "\"" + DATA_KEY + f.data + "\"}"
  }

  /** Every output frame of a queued chunk fits the frame bound. */
  lemma OutputFrameFits(epoch: Bytes, uuid: Uuid, pane: Bytes, data: Bytes)
    requires |epoch| == 36 && IsPaneId(pane) && |data| <= MAX_CHUNK
    ensures |OutputText(epoch, OutputFrame(uuid, pane, Base64.Encode(data)))| <= MAX_FRAME
  {
    Base64.EncodeLength(data);
  }
}
