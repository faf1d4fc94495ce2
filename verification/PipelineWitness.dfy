/** Concrete inputs of the projection pipeline: what its theorems speak of does occur. */
module PipelineWitness {
  import opened Common
  import opened Tmux
  import opened Snapshot
  import opened Delivery
  import opened Control
  import opened PaneRows
  import Terminal

  const WINDOW := Window("@1", "w", 80, 24, "l")

  const MODES := Modes(false, true, false, false, false, false, true)

  function PaneWith(screen: Screen): Pane
  {
    Pane("%1", true, 80, 24, 0, 0, [], [], screen)
  }

  lemma PaneFits(screen: Screen)
    requires screen.cursorX < 80 && screen.cursorY < 24 && screen.upper <= screen.lower < 24
    requires screen.modes.origin ==> screen.upper <= screen.cursorY
    ensures PaneOk(PaneWith(screen)) && Inside(PaneWith(screen), WINDOW) && WindowOk(WINDOW)
    ensures ParsePaneRow(Row(PaneWith(screen), WINDOW), WINDOW) == Ok(PaneWith(screen))
  {
    RowParses(PaneWith(screen), WINDOW);
  }

  // ---- Panes a snapshot cannot restore ----

  /** A one-row scroll region. */
  const ONE_ROW := Screen(0, 0, MODES, 5, 5)

  /** Origin mode with the cursor below the region. */
  const BELOW := Screen(0, 10, MODES.(origin := true), 2, 5)

  /** No terminal ends up showing the captured screen. */
  ghost predicate NeverRestored(pane: Pane)
    requires PaneOk(pane)
  {
    forall t: Terminal.Display, lines: seq<Bytes> ::
      Terminal.Valid(t) && t.width == pane.width && t.height == pane.height && Fits(lines, pane.width, pane.height)
      ==> !Restored(Terminal.Run(t, Render(lines, pane.screen)), lines, pane)
  }

  /** The parser accepts both kinds of pane that no snapshot restores. */
  lemma UnrestorablePanesAreAccepted()
    ensures forall screen :: screen == ONE_ROW || screen == BELOW ==>
              ParsePaneRow(Row(PaneWith(screen), WINDOW), WINDOW) == Ok(PaneWith(screen))
              && !Restorable(PaneWith(screen)) && PaneOk(PaneWith(screen)) && NeverRestored(PaneWith(screen))
  {
    forall screen | screen == ONE_ROW || screen == BELOW
      ensures ParsePaneRow(Row(PaneWith(screen), WINDOW), WINDOW) == Ok(PaneWith(screen))
      ensures !Restorable(PaneWith(screen)) && PaneOk(PaneWith(screen)) && NeverRestored(PaneWith(screen))
    {
      PaneFits(screen);
      NoneRestores(PaneWith(screen));
    }
  }

  lemma NoneRestores(pane: Pane)
    requires PaneOk(pane) && !Restorable(pane)
    ensures NeverRestored(pane)
  {
    hide Render, Restored, Terminal.Run, Terminal.Valid, Fits;
    forall t: Terminal.Display, lines: seq<Bytes>
      | Terminal.Valid(t) && t.width == pane.width && t.height == pane.height && Fits(lines, pane.width, pane.height)
      ensures !Restored(Terminal.Run(t, Render(lines, pane.screen)), lines, pane)
    {
      SnapshotRestores(t, lines, pane);
    }
  }

  // ---- A stream that is cut over ----

  const SCREEN := Screen(2, 0, MODES, 0, 23)

  const CAPTURED: Bytes := "hi\n"
  const BEGUN: Bytes := "%begin 1 1 1\n"
  const ENDED: Bytes := "%end 1 1 1\n"
  const LIVE: Bytes := "%output %1 x\n"

  function Stream(): seq<Bytes>
  {
    [BEGUN, CAPTURED, ENDED] + [BEGUN, Row(PaneWith(SCREEN), WINDOW) + ['\n'], ENDED] + [LIVE]
  }

  const QUEUE: seq<Event> := [OutputEvent("%1", "x")]

  function Shown(): Projection
    requires PaneOk(PaneWith(SCREEN))
  {
    Projection([WindowSummary("@1", "w", true)], WINDOW, [PaneWith(SCREEN)],
               [PaneSnapshot("%1", Render(["hi"], SCREEN))])
  }

  /** A guarded response of one row is its payload and announces nothing. */
  lemma OneRowResponse(row: Bytes, id: Bytes)
    requires !(END <= row) && !(ERROR <= row)
    ensures var lines := [BEGUN, row, ENDED];
            !Guarded(lines) && Payload(lines) == [StripNewline(row)] && Delivered(lines, id) == []
  {
    var one, two := [BEGUN], [BEGUN, row];
    assert BEGIN <= BEGUN && END <= ENDED;
    hide Parse;
    QuietSnoc([], BEGUN, id);
    assert [] + [BEGUN] == one && one[..0] == [];
    assert Guarded(one) && Payload(one) == [];
    QuietSnoc(one, row, id);
    assert one + [row] == two && two[..1] == one;
    assert Guarded(two) && Payload(two) == [StripNewline(row)];
    QuietSnoc(two, ENDED, id);
    assert two + [ENDED] == [BEGUN, row, ENDED] && [BEGUN, row, ENDED][..2] == two;
  }

  lemma QuietSnoc(front: seq<Bytes>, last: Bytes, id: Bytes)
    requires Guarded(front) || BEGIN <= last
    ensures Delivered(front + [last], id) == Delivered(front, id)
  {
    hide Guarded;
    assert (front + [last])[..|front|] == front;
  }

  lemma LiveParses()
    ensures Parse(LIVE) == Output("%1", "x") && !(BEGIN <= LIVE)
  {
    var line: Bytes := "%output %1 x";
    var rest: Bytes := "%1 x";
    assert StripNewline(LIVE) == line && line[8..] == rest;
    assert rest[..2] == "%1" && rest[3..] == "x";
    SpaceAt(rest);
    UnescapeOne('x');
    assert LIVE[1] == 'o';
  }

  lemma UnescapeOne(b: Byte)
    requires b != '\\'
    ensures Unescape([b]) == Some([b])
  {
    assert [b][1..] == [] && [b] + [] == [b];
    assert Escaped([b]) == Some((b, 1));
  }

  lemma SpaceAt(rest: Bytes)
    requires |rest| >= 3 && rest[0] != ' ' && rest[1] != ' ' && rest[2] == ' '
    ensures IndexOf(rest, ' ') == Some(2)
  {
    assert rest[1..][1..] == rest[2..];
    assert IndexOf(rest[2..], ' ') == Some(0);
    assert IndexOf(rest[1..], ' ') == Some(1);
  }

  lemma RowIsNoMarker()
    ensures var row := Row(PaneWith(SCREEN), WINDOW) + ['\n'];
            !(END <= row) && !(ERROR <= row) && StripNewline(row) == Row(PaneWith(SCREEN), WINDOW)
  {
    var f := RowFields(PaneWith(SCREEN), WINDOW);
    assert f[0] == "%1";
    var row := Row(PaneWith(SCREEN), WINDOW) + ['\n'];
    assert Colons(f) == f[0] + [':'] + Colons(f[1..]);
    hide RowFields, Colons;
    assert row[1] == '1' && END[1] == 'e' && ERROR[1] == 'e';
    NotPrefix(END, row);
    NotPrefix(ERROR, row);
  }

  /** The second response and the live record, as the pane sees them. */
  lemma LiveAfterCapture()
    ensures var stream := Stream();
            |stream| == 7 && stream[0..3] == [BEGUN, CAPTURED, ENDED]
            && stream[3..6] == [BEGUN, Row(PaneWith(SCREEN), WINDOW) + ['\n'], ENDED]
            && !Guarded(stream[3..7]) && Delivered(stream[3..7], "%1") == "x"
  {
    var stream := Stream();
    var second := [BEGUN, Row(PaneWith(SCREEN), WINDOW) + ['\n'], ENDED];
    RowIsNoMarker();
    OneRowResponse(second[1], "%1");
    LiveParses();
    assert stream[3..7] == second + [LIVE] && stream[3..6] == second;
    assert (second + [LIVE])[..3] == second;
    hide Parse;
  }

  lemma QueueHolds()
    ensures Queued(QUEUE, "%1") == "x" && Sized(QUEUE)
  {
    QueuedOne(QUEUE[0], "%1");
  }

  lemma StreamIsObserved()
    ensures Observed(Stream(), Cut(0, 3, 6), WINDOW, PaneWith(SCREEN))
  {
    hide Guarded, Payload, Delivered, Row, ParsePaneRow, PaneOk, Stream, WindowOk, Inside;
    PaneFits(SCREEN);
    LiveAfterCapture();
    RowIsNoMarker();
    OneRowResponse(Row(PaneWith(SCREEN), WINDOW) + ['\n'], "%1");
  }

  lemma StreamIsLive()
    ensures Live(Stream(), 3, 7, QUEUE, "%1") && Payload(Stream()[0..3]) == ["hi"]
  {
    assert CAPTURED[0] == 'h' && StripNewline(CAPTURED) == "hi";
    assert !(END <= CAPTURED) && !(ERROR <= CAPTURED);
    hide Guarded, Payload, Delivered, Queued, Row, Stream;
    LiveAfterCapture();
    QueueHolds();
    OneRowResponse(CAPTURED, "%1");
  }

  /** The concrete stream is cut over at its third record, and its output queued. */
  lemma StreamIsCutOver()
    ensures PaneOk(PaneWith(SCREEN))
    ensures CutOver(Stream(), Cut(0, 3, 6), 7, QUEUE, WINDOW, PaneWith(SCREEN),
            PaneSnapshot("%1", Render(["hi"], SCREEN)))
  {
    hide Guarded, Payload, Delivered, Queued, Render, Row;
    hide ParsePaneRow, Stream, Observed, Live, PaneOk, WindowOk, Inside;
    PaneFits(SCREEN);
    StreamIsObserved();
    StreamIsLive();
  }

  // ---- Its projection ----

  lemma ShortDecimal(n: nat)
    requires n < 100
    ensures |Terminal.Decimal(n)| <= 2
  {
    assert n >= 10 ==> |Terminal.Decimal(n / 10)| == 1;
  }

  lemma RenderIsShort()
    requires PaneOk(PaneWith(SCREEN))
    ensures |Render(["hi"], SCREEN)| <= 200
  {
    hide Terminal.Sequence, Private, Choice, Terminal.Decimal;
    PrologueLiterals();
    OriginLiterals();
    ModeLiterals(MODES);
    ShortDecimal(1);
    ShortDecimal(24);
    ShortDecimal(3);
    PairLiteral(1, 24, 'r');
    PairLiteral(1, 3, 'H');
    ChoiceIsShort(MODES);
    assert |Joined(["hi"])| == 2;
  }

  lemma ChoiceIsShort(m: Modes)
    ensures |Choice(m.insert, "[4h", "[4l")| == 4 && |Choice(m.wrap, "[?7h", "[?7l")| == 5
    ensures |Choice(m.cursorKeys, "[?1h", "[?1l")| == 5 && |Choice(m.visible, "[?25h", "[?25l")| == 6
  {
  }

  lemma OneWindow()
    ensures WindowsOk([WindowSummary("@1", "w", true)])
    ensures ActiveWindows([WindowSummary("@1", "w", true)]) == [WindowSummary("@1", "w", true)]
  {
    var windows := [WindowSummary("@1", "w", true)];
    assert windows[..0] == [];
    assert SummaryOk(windows[0]);
  }

  lemma OnePane(p: Pane)
    requires PaneOk(p) && p.active && p.width * p.height <= MAX_GRID_CELLS
    ensures PanesOk([p])
  {
    hide PaneOk;
    assert [p][..0] == [];
    assert ActiveCount([p]) == 1 && Cells([p]) == p.width * p.height;
  }

  lemma OneSnapshot(s: PaneSnapshot)
    ensures TotalSnapshot([s]) == |s.content|
  {
    assert [s][..0] == [];
  }

  lemma ShownIsProjection()
    ensures PaneOk(PaneWith(SCREEN)) && ProjectionOk(Shown())
  {
    hide Render, PaneOk, WindowOk, Inside, WindowsOk, ActiveWindows, PanesOk, TotalSnapshot, ParsePaneRow, Row, TextOk;
    PaneFits(SCREEN);
    RenderIsShort();
    OneWindow();
    OnePane(PaneWith(SCREEN));
    OneSnapshot(PaneSnapshot("%1", Render(["hi"], SCREEN)));
    NoLabels(SCREEN);
  }

  lemma NoLabels(screen: Screen)
    ensures LabelsOk(PaneWith(screen))
  {
  }

  const DISPLAY := Terminal.Display(
    80, 24, Terminal.BlankRows(80, 24), 0, 0, false, 0, 23, Terminal.DefaultModes, Terminal.Ground)

  /** Everything the end-to-end theorem asks of a pane, at once, with live output; the pane is restorable. */
  ghost predicate Inhabited(stream: seq<Bytes>, c: Cut, pos: nat, events: seq<Event>, p: Projection,
                            t: Terminal.Display)
  {
    ProjectionOk(p) && |p.panes| == 1 && Sized(events) && Restorable(p.panes[0])
    && CutOver(stream, c, pos, events, p.window, p.panes[0], p.snapshots[0])
    && Terminal.Valid(t) && t.width == p.panes[0].width && t.height == p.panes[0].height
    && Fits(Payload(stream[c.start..c.cut]), t.width, t.height) && Delivered(stream[c.cut..pos], p.panes[0].id) == "x"
  }

  lemma DisplayFits()
    ensures Terminal.Valid(DISPLAY) && Fits(["hi"], 80, 24) && Restorable(PaneWith(SCREEN))
  {
  }

  lemma PipelineIsInhabited()
    ensures PaneOk(PaneWith(SCREEN)) && Inhabited(Stream(), Cut(0, 3, 6), 7, QUEUE, Shown(), DISPLAY)
  {
    hide Guarded, Payload, Delivered, Queued, Render, Stream;
    hide CutOver, PaneOk, ProjectionOk, Sized, Terminal.Valid, Fits, Restorable;
    StreamIsCutOver();
    StreamIsLive();
    ShownIsProjection();
    QueueHolds();
    LiveAfterCapture();
    DisplayFits();
  }

  // ---- A counter ahead of its queue ----

  lemma RefreshParses()
    ensures Parse("%sessions-changed") == Refresh
  {
    var line: Bytes := "%sessions-changed";
    assert StripNewline(line) == line && line[1] == 's';
    NotPrefix(OUTPUT, line);
    NotPrefix(EXTENDED, line);
    NotPrefix("%exit", line);
    NotPrefix("%exit ", line);
    NotPrefix(PAUSE, line);
    NotPrefix(CONTINUE, line);
  }

  /** A full queue refuses one more byte of output, after the counter has been raised. */
  method FullQueueDrifts() returns (control: ControlAdapter)
    ensures fresh(control) && control.Sound() && |control.events| == MAX_EVENTS && control.Drift() > 0
  {
    control := new ControlAdapter([]);
    RefreshParses();
    LiveParses();
    hide Parse, Size, Sized;
    for i := 0 to MAX_EVENTS
      invariant fresh(control) && control.Exact() && |control.events| == i
    {
      var queued := control.IngestNotification("%sessions-changed");
    }
    var refused := control.IngestNotification(LIVE);
    assert Chunks("x") == ["x"];
  }
}
