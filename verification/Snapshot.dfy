/** A captured pane compiled to terminal sequences, and what a terminal makes of them. */
module Snapshot {
  import opened Common
  import opened Tmux
  import opened Terminal

  const MAX_SNAPSHOT: nat := 262_144

  const CRLF: Bytes := ['\r', '\n']

  function Private(n: nat, on: bool): Bytes
  {
    Sequence(true, [n], if on then 'h' else 'l')
  }

  function Prologue(alternate: bool): Bytes
  {
    [ESC, 'c'] + (if alternate then Private(1049, true) else [])
    + Private(25, false) + Private(6, false) + [ESC, '[', 'H'] + Sequence(false, [2], 'J')
  }

  function Joined(lines: seq<Bytes>): Bytes
  {
    if lines == [] then []
    else if |lines| == 1 then lines[0]
    else Joined(lines[..|lines| - 1]) + CRLF + lines[|lines| - 1]
  }

  /** The row sent for the cursor; the pane parser keeps it from underflowing. */
  function CursorRow(s: Screen): (row: nat)
    requires s.modes.origin ==> s.upper <= s.cursorY
    ensures row >= 1
  {
    if s.modes.origin then s.cursorY - s.upper + 1 else s.cursorY + 1
  }

  function Placement(s: Screen): Bytes
    requires s.modes.origin ==> s.upper <= s.cursorY
  {
    Region(s) + Sequence(false, [CursorRow(s), s.cursorX + 1], 'H')
  }

  function Region(s: Screen): Bytes
  {
    Sequence(false, [s.upper + 1, s.lower + 1], 'r') + Private(6, s.modes.origin)
  }

  function ModeSettings(m: Modes): Bytes
  {
    WriteModes(m) + KeyModes(m)
  }

  function WriteModes(m: Modes): Bytes
  {
    Sequence(false, [4], if m.insert then 'h' else 'l') + Private(7, m.wrap)
  }

  function KeyModes(m: Modes): Bytes
  {
    Private(1, m.cursorKeys) + [ESC, if m.keypad then '=' else '>'] + Private(25, m.visible)
  }

  function Render(lines: seq<Bytes>, s: Screen): Bytes
    requires s.modes.origin ==> s.upper <= s.cursorY
  {
    Prologue(s.modes.alternate) + Joined(lines) + Placement(s) + ModeSettings(s.modes)
  }

  /** The escape sequence for a mode that is set or reset. */
  function Choice(enabled: bool, on: Bytes, reset: Bytes): Bytes
  {
    [ESC] + if enabled then on else reset
  }

  lemma Decimals()
    ensures Decimal(1) == "1" && Decimal(2) == "2" && Decimal(4) == "4" && Decimal(6) == "6" && Decimal(7) == "7"
    ensures Decimal(25) == "25" && Decimal(1049) == "1049"
  {
    assert Decimal(10) == "10";
    assert Decimal(104) == "104";
  }

  /** The sequences before the rows, as the literals the code emits. */
  lemma PrologueLiterals()
    ensures Private(1049, true) == [ESC] + "[?1049h" && Private(25, false) == [ESC] + "[?25l"
    ensures Private(6, false) == [ESC] + "[?6l" && Sequence(false, [2], 'J') == [ESC] + "[2J"
  {
    Decimals();
    hide Decimal;
  }

  lemma PairLiteral(a: nat, b: nat, final: Byte)
    ensures Sequence(false, [a, b], final) == [ESC, '['] + Decimal(a) + [';'] + Decimal(b) + [final]
  {
    hide Decimal;
    assert Params([a, b]) == Decimal(a) + [';'] + Decimal(b);
    assert [ESC, '['] + [] == [ESC, '['];
  }

  lemma OriginLiterals()
    ensures Private(6, true) == [ESC] + "[?6h" && Private(6, false) == [ESC] + "[?6l"
  {
    Decimals();
    hide Decimal;
  }

  lemma ModeLiterals(m: Modes)
    ensures Sequence(false, [4], if m.insert then 'h' else 'l') == Choice(m.insert, "[4h", "[4l")
    ensures Private(7, m.wrap) == Choice(m.wrap, "[?7h", "[?7l")
    ensures Private(1, m.cursorKeys) == Choice(m.cursorKeys, "[?1h", "[?1l")
    ensures [ESC, if m.keypad then '=' else '>'] == Choice(m.keypad, "=", ">")
    ensures Private(25, m.visible) == Choice(m.visible, "[?25h", "[?25l")
  {
    Decimals();
    hide Decimal;
  }

  lemma {:induction false} JoinedGrows(lines: seq<Bytes>, i: nat)
    requires i <= |lines|
    ensures |Joined(lines[..i])| <= |Joined(lines)|
    decreases |lines|
  {
    if i == |lines| {
      assert lines[..i] == lines;
    } else if |lines| == 1 {
      assert lines[..i] == [];
    } else {
      var front := lines[..|lines| - 1];
      JoinedGrows(front, i);
      assert front[..i] == lines[..i];
    }
  }

  /** Region, origin mode and cursor, appended as the code formats them. */
  method AppendPlacement(content: Bytes, s: Screen) returns (r: Bytes)
    requires s.modes.origin ==> s.upper <= s.cursorY
    ensures r == content + Placement(s)
  {
    hide Sequence, Private, Decimal;
    var row, column := CursorRow(s), s.cursorX + 1;
    PairLiteral(s.upper + 1, s.lower + 1, 'r');
    PairLiteral(row, column, 'H');
    OriginLiterals();
    r := content + ([ESC, '['] + Decimal(s.upper + 1) + [';'] + Decimal(s.lower + 1) + ['r']);
    r := r + if s.modes.origin then [ESC] + "[?6h" else [ESC] + "[?6l";
    r := r + ([ESC, '['] + Decimal(row) + [';'] + Decimal(column) + ['H']);
  }

  method AppendModes(content: Bytes, m: Modes) returns (r: Bytes)
    ensures r == content + ModeSettings(m)
  {
    hide Sequence, Private, Choice;
    ModeLiterals(m);
    r := content + Choice(m.insert, "[4h", "[4l");
    r := r + Choice(m.wrap, "[?7h", "[?7l");
    r := r + Choice(m.cursorKeys, "[?1h", "[?1l");
    r := r + Choice(m.keypad, "=", ">");
    r := r + Choice(m.visible, "[?25h", "[?25l");
  }

  /** The content is exactly `Render`, and is refused exactly when it is too long. */
  method CaptureLines(lines: seq<Bytes>, pane: Pane) returns (r: Result<Bytes>)
    requires PaneOk(pane)
    ensures r == var content := Render(lines, pane.screen);
                 if |content| <= MAX_SNAPSHOT then Ok(content) else Err(ProjectionTooLarge)
  {
    hide Sequence, Private, Placement, ModeSettings;
    var s := pane.screen;
    PrologueLiterals();
    var content: Bytes := [ESC, 'c'];
    if s.modes.alternate {
      content := content + ([ESC] + "[?1049h");
    }
    content := content + ([ESC] + "[?25l") + ([ESC] + "[?6l") + [ESC, '[', 'H'] + ([ESC] + "[2J");
    assert content == Prologue(s.modes.alternate);
    for i := 0 to |lines|
      invariant content == Prologue(s.modes.alternate) + Joined(lines[..i])
    {
      assert lines[..i + 1][..i] == lines[..i];
      if i != 0 {
        content := content + CRLF;
      }
      content := content + lines[i];
      assert content == Prologue(s.modes.alternate) + Joined(lines[..i + 1]);
      if |content| > MAX_SNAPSHOT {
        JoinedGrows(lines, i + 1);
        return Err(ProjectionTooLarge);
      }
    }
    assert lines[..|lines|] == lines;
    content := AppendPlacement(content, s);
    content := AppendModes(content, s.modes);
    if |content| > MAX_SNAPSHOT {
      return Err(ProjectionTooLarge);
    }
    return Ok(content);
  }

  // ---- What the terminal shows ----

  predicate Plain(line: Bytes)
  {
    forall i :: 0 <= i < |line| ==> ' ' <= line[i] <= '~'
  }

  /** At most `height` plain rows of at most `width` cells. */
  predicate Fits(lines: seq<Bytes>, width: nat, height: nat)
  {
    |lines| <= height && forall i :: 0 <= i < |lines| ==> Plain(lines[i]) && |lines[i]| <= width
  }

  function PaddedRow(line: Bytes, width: nat): (row: Bytes)
    requires |line| <= width
    ensures |row| == width
  {
    line + Blank(width - |line|)
  }

  function Padded(lines: seq<Bytes>, width: nat, height: nat): (rows: seq<Bytes>)
    requires Fits(lines, width, height)
    ensures |rows| == height && forall i :: 0 <= i < height ==> |rows[i]| == width
  {
    seq(height, i requires 0 <= i < height => if i < |lines| then PaddedRow(lines[i], width) else Blank(width))
  }

  /** The display after the prologue. */
  function Cleared(width: nat, height: nat, alternate: bool): Display
    requires width > 0 && height > 0
  {
    Display(width, height, BlankRows(width, height), 0, 0, false, 0, height - 1,
            DefaultModes.(alternate := alternate, visible := false), Ground)
  }

  lemma RunHome(t: Display)
    requires Valid(t)
    ensures Run(t, [ESC, '[', 'H']) == MoveTo(t.(parser := Ground), 1, 1)
  {
    hide Run;
    var s: Bytes := [ESC, '['];
    RunPrefix(t, false);
    assert s + [] == s;
    RunSplit(t, s, ['H']);
    assert s + ['H'] == [ESC, '[', 'H'];
    RunOne(Run(t, s), 'H');
  }

  lemma RunEscape(t: Display, b: Byte)
    requires Valid(t) && b != ESC
    ensures Run(t, [ESC, b]) == Feed(t.(parser := Escape), b)
  {
    var s: Bytes := [ESC, b];
    assert s[1..] == [b];
    RunOne(t.(parser := Escape), b);
  }

  lemma ExecutePrivate(t: Display, n: nat, on: bool)
    requires Valid(t)
    ensures Run(t, Private(n, on)) == SetPrivate(t.(parser := Ground), n, on)
  {
    RunSequence(t, true, [n], if on then 'h' else 'l');
  }

  /** One more piece of a byte string. */
  lemma RunThen(t: Display, a: Bytes, t1: Display, b: Bytes, t2: Display)
    requires Valid(t) && Run(t, a) == t1 && Run(t1, b) == t2
    ensures Run(t, a + b) == t2
  {
    RunSplit(t, a, b);
  }

  /** Setting a mode other than the origin and alternate ones changes nothing else. */
  lemma RunMode(t: Display, n: nat, on: bool)
    requires Valid(t) && t.parser == Ground && (n == 1 || n == 7 || n == 25)
    ensures Run(t, Private(n, on))
            == t.(modes := if n == 1 then t.modes.(cursorKeys := on) else if n == 7 then t.modes.(wrap := on)
              else t.modes.(visible := on))
  {
    hide Run, Sequence;
    ExecutePrivate(t, n, on);
    assert t.(parser := Ground) == t;
  }

  lemma RunInsert(t: Display, on: bool)
    requires Valid(t) && t.parser == Ground
    ensures Run(t, Sequence(false, [4], if on then 'h' else 'l')) == t.(modes := t.modes.(insert := on))
  {
    hide Run, Sequence;
    RunSequence(t, false, [4], if on then 'h' else 'l');
    assert t.(parser := Ground) == t;
  }

  lemma RunKeypad(t: Display, on: bool)
    requires Valid(t) && t.parser == Ground
    ensures Run(t, [ESC, if on then '=' else '>']) == t.(modes := t.modes.(keypad := on))
  {
    RunEscape(t, if on then '=' else '>');
  }

  lemma RunErase(t: Display)
    requires Valid(t) && t.parser == Ground
    ensures Run(t, Sequence(false, [2], 'J')) == t.(rows := BlankRows(t.width, t.height))
  {
    hide Run, Sequence;
    RunSequence(t, false, [2], 'J');
    assert t.(parser := Ground) == t;
  }

  lemma RunReset(t: Display)
    requires Valid(t)
    ensures Run(t, [ESC, 'c']) == Reset(t)
  {
    RunEscape(t, 'c');
  }

  lemma RunAlternate(t: Display)
    requires Valid(t) && t.parser == Ground && t.rows == BlankRows(t.width, t.height)
    ensures Run(t, Private(1049, true)) == t.(modes := t.modes.(alternate := true))
  {
    hide Run, Sequence;
    ExecutePrivate(t, 1049, true);
    assert t.(parser := Ground) == t;
  }

  lemma ResetTo(t: Display, alternate: bool)
    requires Valid(t)
    ensures Run(t, [ESC, 'c'] + (if alternate then Private(1049, true) else []))
            == Reset(t).(modes := DefaultModes.(alternate := alternate))
  {
    hide Run, Private;
    RunReset(t);
    if alternate {
      RunAlternate(Reset(t));
      RunThen(t, [ESC, 'c'], Reset(t), Private(1049, true), Reset(t).(modes := DefaultModes.(alternate := true)));
    } else {
      assert [ESC, 'c'] + [] == [ESC, 'c'];
    }
  }

  lemma PrologueClears(t: Display, alternate: bool)
    requires Valid(t)
    ensures Run(t, Prologue(alternate)) == Cleared(t.width, t.height, alternate)
  {
    hide Run, Sequence, Private;
    var s1: Bytes := [ESC, 'c'] + (if alternate then Private(1049, true) else []);
    ResetTo(t, alternate);
    var t1 := Reset(t).(modes := DefaultModes.(alternate := alternate));
    var t2 := Cleared(t.width, t.height, alternate);
    RunMode(t1, 25, false);
    OriginOffIsHome(t2);
    RunHome(t2);
    RunErase(t2);
    RunThen(t, s1, t1, Private(25, false), t2);
    var s2 := s1 + Private(25, false);
    RunThen(t, s2, t2, Private(6, false), t2);
    var s3 := s2 + Private(6, false);
    RunThen(t, s3, t2, [ESC, '[', 'H'], t2);
    RunThen(t, s3 + [ESC, '[', 'H'], t2, Sequence(false, [2], 'J'), t2);
  }

  lemma OriginOffIsHome(t: Display)
    requires Valid(t) && t.parser == Ground && !t.modes.origin && t.x == 0 && t.y == 0 && !t.wrapped
    ensures Run(t, Private(6, false)) == t && MoveTo(t, 1, 1) == t
  {
    hide Run, Sequence;
    ExecutePrivate(t, 6, false);
    assert t.(parser := Ground) == t;
  }

  /** While a row is printed: its first `k` cells are written, the rest still blank. */
  function Printing(t: Display, line: Bytes, k: nat): Display
    requires Valid(t) && k <= |line| <= t.width
  {
    t.(rows := t.rows[t.y := PaddedRow(line[..k], t.width)], x := if k < t.width then k else t.width - 1,
      wrapped := k == t.width)
  }

  predicate AtRowStart(t: Display)
  {
    Valid(t) && t.x == 0 && !t.wrapped && !t.modes.insert && t.parser == Ground && t.rows[t.y] == Blank(t.width)
  }

  lemma PrintingStep(t: Display, line: Bytes, k: nat)
    requires AtRowStart(t) && k < |line| <= t.width && Plain(line)
    ensures Valid(Printing(t, line, k)) && Feed(Printing(t, line, k), line[k]) == Printing(t, line, k + 1)
  {
    var before, after := PaddedRow(line[..k], t.width), PaddedRow(line[..k + 1], t.width);
    assert before[k := line[k]] == after;
    assert t.rows[t.y := before][t.y := after] == t.rows[t.y := after];
  }

  lemma {:induction false} RowPrints(t: Display, line: Bytes, k: nat)
    requires AtRowStart(t) && k <= |line| <= t.width && Plain(line)
    ensures Run(t, line[..k]) == Printing(t, line, k)
  {
    if k == 0 {
      assert PaddedRow(line[..0], t.width) == Blank(t.width);
      assert t.rows[t.y := t.rows[t.y]] == t.rows;
    } else {
      RowPrints(t, line, k - 1);
      RunSplit(t, line[..k - 1], [line[k - 1]]);
      assert line[..k] == line[..k - 1] + [line[k - 1]];
      RunOne(Run(t, line[..k - 1]), line[k - 1]);
      PrintingStep(t, line, k - 1);
    }
  }

  lemma RunNewRow(t: Display)
    requires Valid(t) && t.parser == Ground
    ensures Run(t, CRLF) == LineFeed(t.(x := 0, wrapped := false))
  {
    assert CRLF[1..] == ['\n'];
    RunOne(t.(x := 0, wrapped := false), '\n');
  }

  /** The display once every captured row has been printed. */
  function Shown(lines: seq<Bytes>, width: nat, height: nat, alternate: bool): (t: Display)
    requires width > 0 && Fits(lines, width, height) && height > 0
    ensures Valid(t)
  {
    var last := if lines == [] then [] else lines[|lines| - 1];
    Cleared(width, height, alternate).(
      rows := Padded(lines, width, height), x := if |last| < width then |last| else width - 1,
        wrapped := |last| == width,
      y := if lines == [] then 0 else |lines| - 1)
  }

  /** Where the last row starts. */
  function RowStart(lines: seq<Bytes>, width: nat, height: nat, alternate: bool): (t: Display)
    requires width > 0 && height > 0 && Fits(lines, width, height) && lines != []
    ensures AtRowStart(t)
  {
    Cleared(width, height, alternate).(rows := Padded(lines[..|lines| - 1], width, height), y := |lines| - 1)
  }

  /** Moving from a shown row to the next, and printing there. */
  lemma NewRowStarts(lines: seq<Bytes>, width: nat, height: nat, alternate: bool)
    requires width > 0 && height > 0 && Fits(lines, width, height) && |lines| > 1
    ensures Run(Shown(lines[..|lines| - 1], width, height, alternate), CRLF)
            == RowStart(lines, width, height, alternate)
  {
    RunNewRow(Shown(lines[..|lines| - 1], width, height, alternate));
  }

  lemma RowCompletes(lines: seq<Bytes>, width: nat, height: nat, alternate: bool)
    requires width > 0 && height > 0 && Fits(lines, width, height) && lines != []
    ensures Run(RowStart(lines, width, height, alternate), lines[|lines| - 1]) == Shown(lines, width, height, alternate)
  {
    var last := lines[|lines| - 1];
    RowPrints(RowStart(lines, width, height, alternate), last, |last|);
    assert last[..|last|] == last;
    hide Run;
    assert Padded(lines[..|lines| - 1], width, height)[|lines| - 1 := PaddedRow(last, width)]
      == Padded(lines, width, height);
  }

  lemma {:induction false} RowsShow(lines: seq<Bytes>, width: nat, height: nat, alternate: bool)
    requires width > 0 && height > 0 && Fits(lines, width, height)
    ensures Run(Cleared(width, height, alternate), Joined(lines)) == Shown(lines, width, height, alternate)
    decreases |lines|
  {
    var t := Cleared(width, height, alternate);
    if lines == [] {
      assert Padded(lines, width, height) == BlankRows(width, height);
    } else {
      RowCompletes(lines, width, height, alternate);
      if |lines| == 1 {
        assert Padded(lines[..0], width, height) == BlankRows(width, height);
      } else {
        var front, last := lines[..|lines| - 1], lines[|lines| - 1];
        RowsShow(front, width, height, alternate);
        NewRowStarts(lines, width, height, alternate);
        hide Run, Shown, Padded;
        var start := RowStart(lines, width, height, alternate);
        RunThen(t, Joined(front), Shown(front, width, height, alternate), CRLF, start);
        RunThen(t, Joined(front) + CRLF, start, last, Shown(lines, width, height, alternate));
      }
    }
  }

  function Placed(t: Display, s: Screen): (r: Display)
    requires Valid(t) && (s.modes.origin ==> s.upper <= s.cursorY)
    ensures Valid(r)
  {
    MoveTo(SetPrivate(SetMargins(t, s.upper + 1, s.lower + 1), 6, s.modes.origin), CursorRow(s), s.cursorX + 1)
  }

  lemma RegionRuns(t: Display, s: Screen)
    requires Valid(t) && t.parser == Ground
    ensures var t' := SetPrivate(SetMargins(t, s.upper + 1, s.lower + 1), 6, s.modes.origin);
            Run(t, Region(s)) == t' && t'.parser == Ground
  {
    hide Run, Sequence, Private, MoveTo, SetMargins;
    var t1 := SetMargins(t, s.upper + 1, s.lower + 1);
    RunMargins(t, s.upper + 1, s.lower + 1);
    RunOrigin(t1, s.modes.origin);
    hide SetPrivate;
    RunThen(t, Sequence(false, [s.upper + 1, s.lower + 1], 'r'), t1, Private(6, s.modes.origin),
      SetPrivate(t1, 6, s.modes.origin));
  }

  lemma PlacementRuns(t: Display, s: Screen)
    requires Valid(t) && t.parser == Ground && (s.modes.origin ==> s.upper <= s.cursorY)
    ensures Run(t, Placement(s)) == Placed(t, s)
  {
    hide Run, Sequence, Region, MoveTo, SetMargins, SetPrivate, CursorRow;
    var t1 := SetPrivate(SetMargins(t, s.upper + 1, s.lower + 1), 6, s.modes.origin);
    RegionRuns(t, s);
    RunCursor(t1, CursorRow(s), s.cursorX + 1);
    RunThen(t, Region(s), t1, Sequence(false, [CursorRow(s), s.cursorX + 1], 'H'),
      MoveTo(t1, CursorRow(s), s.cursorX + 1));
  }

  lemma RunOrigin(t: Display, on: bool)
    requires Valid(t) && t.parser == Ground
    ensures Run(t, Private(6, on)) == SetPrivate(t, 6, on) && SetPrivate(t, 6, on).parser == Ground
  {
    hide Run, Sequence;
    ExecutePrivate(t, 6, on);
    assert t.(parser := Ground) == t;
  }

  lemma RunMargins(t: Display, top: nat, bottom: nat)
    requires Valid(t) && t.parser == Ground && top >= 1 && bottom >= 1
    ensures Run(t, Sequence(false, [top, bottom], 'r')) == SetMargins(t, top, bottom)
    ensures SetMargins(t, top, bottom).parser == Ground
  {
    hide Run, Sequence, SetMargins;
    RunSequence(t, false, [top, bottom], 'r');
    assert t.(parser := Ground) == t;
    MarginsKeepParser(t, top, bottom);
  }

  lemma MarginsKeepParser(t: Display, top: nat, bottom: nat)
    requires Valid(t)
    ensures SetMargins(t, top, bottom).parser == t.parser
  {
  }

  lemma RunCursor(t: Display, row: nat, column: nat)
    requires Valid(t) && t.parser == Ground && row >= 1 && column >= 1
    ensures Run(t, Sequence(false, [row, column], 'H')) == MoveTo(t, row, column)
  {
    hide Run, Sequence, MoveTo;
    RunSequence(t, false, [row, column], 'H');
    assert t.(parser := Ground) == t;
  }

  lemma WriteModesRun(t: Display, m: Modes)
    requires Valid(t) && t.parser == Ground
    ensures Run(t, WriteModes(m)) == t.(modes := t.modes.(insert := m.insert, wrap := m.wrap))
  {
    hide Run, Sequence, Private;
    RunInsert(t, m.insert);
    var t1 := t.(modes := t.modes.(insert := m.insert));
    RunMode(t1, 7, m.wrap);
    RunThen(t, Sequence(false, [4], if m.insert then 'h' else 'l'), t1, Private(7, m.wrap),
      t1.(modes := t1.modes.(wrap := m.wrap)));
  }

  lemma KeyModesRun(t: Display, m: Modes)
    requires Valid(t) && t.parser == Ground
    ensures Run(t, KeyModes(m)) == t.(modes := t.modes.(cursorKeys := m.cursorKeys, keypad := m.keypad,
            visible := m.visible))
  {
    hide Run, Private;
    var keypad: Bytes := [ESC, if m.keypad then '=' else '>'];
    RunMode(t, 1, m.cursorKeys);
    var t1 := t.(modes := t.modes.(cursorKeys := m.cursorKeys));
    RunKeypad(t1, m.keypad);
    var t2 := t1.(modes := t1.modes.(keypad := m.keypad));
    RunMode(t2, 25, m.visible);
    RunThen(t, Private(1, m.cursorKeys), t1, keypad, t2);
    RunThen(t, Private(1, m.cursorKeys) + keypad, t2, Private(25, m.visible),
      t2.(modes := t2.modes.(visible := m.visible)));
  }

  lemma ModesRun(t: Display, m: Modes)
    requires Valid(t) && t.parser == Ground && t.modes.alternate == m.alternate && t.modes.origin == m.origin
    ensures Run(t, ModeSettings(m)) == t.(modes := m)
  {
    hide Run, WriteModes, KeyModes;
    var t1 := t.(modes := t.modes.(insert := m.insert, wrap := m.wrap));
    WriteModesRun(t, m);
    KeyModesRun(t1, m);
    RunThen(t, WriteModes(m), t1, KeyModes(m), t.(modes := m));
  }

  /** The captured rows, region, modes and absolute cursor position are on display. */
  predicate Restored(t: Display, lines: seq<Bytes>, pane: Pane)
    requires Fits(lines, pane.width, pane.height)
  {
    t.rows == Padded(lines, pane.width, pane.height) && t.x == pane.screen.cursorX && t.y == pane.screen.cursorY
    && !t.wrapped && t.upper == pane.screen.upper && t.lower == pane.screen.lower && t.modes == pane.screen.modes
    && t.parser == Ground
  }

  /** The region has two rows or is the whole screen, and origin mode keeps the cursor inside it. */
  predicate Restorable(pane: Pane)
  {
    (pane.screen.upper < pane.screen.lower || pane.height == 1)
    && (pane.screen.modes.origin ==> pane.screen.cursorY <= pane.screen.lower)
  }

  /** What any terminal of the pane's size ends up showing. */
  lemma SnapshotShows(t: Display, lines: seq<Bytes>, pane: Pane)
    requires Valid(t) && PaneOk(pane) && t.width == pane.width && t.height == pane.height
    requires Fits(lines, pane.width, pane.height)
    ensures var s := pane.screen;
            Run(t, Render(lines, s))
            == Placed(Shown(lines, pane.width, pane.height, s.modes.alternate), s).(modes := s.modes)
  {
    var s := pane.screen;
    hide Run, Prologue, Joined, Placement, ModeSettings, Shown;
    var a, b := Prologue(s.modes.alternate), Joined(lines);
    PrologueClears(t, s.modes.alternate);
    RunSplit(t, a, b);
    RowsShow(lines, pane.width, pane.height, s.modes.alternate);
    RunSplit(t, a + b, Placement(s));
    var shown := Shown(lines, pane.width, pane.height, s.modes.alternate);
    ShownIsPlain(lines, pane.width, pane.height, s.modes.alternate);
    PlacementRuns(shown, s);
    RunSplit(t, a + b + Placement(s), ModeSettings(s.modes));
    ModesRun(Placed(shown, s), s.modes);
  }

  lemma ShownIsPlain(lines: seq<Bytes>, width: nat, height: nat, alternate: bool)
    requires width > 0 && Fits(lines, width, height) && height > 0
    ensures var t := Shown(lines, width, height, alternate);
            t.parser == Ground && t.modes.alternate == alternate && !t.modes.origin && t.width == width
              && t.height == height
            && t.rows == Padded(lines, width, height) && t.upper == 0 && t.lower == height - 1
  {
  }

  /** A snapshot restores the captured screen exactly when the pane is restorable. */
  lemma SnapshotRestores(t: Display, lines: seq<Bytes>, pane: Pane)
    requires Valid(t) && PaneOk(pane) && t.width == pane.width && t.height == pane.height
    requires Fits(lines, pane.width, pane.height)
    ensures Restored(Run(t, Render(lines, pane.screen)), lines, pane) <==> Restorable(pane)
  {
    hide Run, Render, Shown, Padded;
    SnapshotShows(t, lines, pane);
    ShownIsPlain(lines, pane.width, pane.height, pane.screen.modes.alternate);
  }
}
