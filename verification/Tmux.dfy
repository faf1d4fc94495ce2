/** Text formats of the tmux control connection: markers, notifications, rows and escapes. */
module Tmux {
  import opened Common

  /** One octet, written as the character with that code. */
  type Byte = c: char | c as int < 256

  type Bytes = seq<Byte>

  const MAX_DIMENSION: nat := 10_000
  const MAX_GRID_CELLS: nat := 2_000_000
  const MAX_PANES: nat := 32
  const MAX_WINDOWS: nat := 128
  const MAX_TEXT: nat := 256
  const MAX_NAME: nat := 128
  const MAX_LAYOUT: nat := 4096
  const U32_MAX: nat := 0xFFFF_FFFF

  datatype TmuxError = Ssh | TooManyPanes | ProjectionTooLarge | Protocol | Target | Changed | Deadline

  datatype Result<+T> = Ok(value: T) | Err(error: TmuxError)

  // ---- Bytes and numbers ----

  predicate IsDigit(b: Byte)
  {
    '0' <= b <= '9'
  }

  predicate AllDigits(s: Bytes)
  {
    forall i :: 0 <= i < |s| ==> IsDigit(s[i])
  }

  function Value(digits: Bytes): nat
    requires AllDigits(digits)
  {
    if digits == [] then 0 else 10 * Value(digits[..|digits| - 1]) + (digits[|digits| - 1] as int - '0' as int)
  }

  /** An unsigned decimal, with the optional plus sign the integer parser admits. */
  function ParseUnsigned(s: Bytes, max: nat): Option<nat>
  {
    var digits := if |s| > 0 && s[0] == '+' then s[1..] else s;
    if digits == [] || !AllDigits(digits) || Value(digits) > max then None else Some(Value(digits))
  }

  function IndexOf(s: Bytes, b: Byte): (i: Option<nat>)
    ensures i.Some? ==> i.value < |s| && s[i.value] == b && b !in s[..i.value]
    ensures i.None? ==> b !in s
  {
    if s == [] then None
    else if s[0] == b then Some(0)
    else
      var rest := IndexOf(s[1..], b);
      if rest.None? then None else Some(rest.value + 1)
  }

  /** At most `n` colon-separated fields, the last one taking the remainder. */
  function Fields(s: Bytes, n: nat): seq<Bytes>
    decreases |s|
  {
    var i := IndexOf(s, ':');
    if n <= 1 || i.None? then [s] else [s[..i.value]] + Fields(s[i.value + 1..], n - 1)
  }

  predicate IsBlank(b: Byte)
  {
    b == ' ' || '\t' <= b <= '\r'
  }

  /** The words of `s`, `word` being the one under construction. */
  function Words(s: Bytes, word: Bytes): seq<Bytes>
    decreases |s|
  {
    var done := if word == [] then [] else [word];
    if s == [] then done
    else if IsBlank(s[0]) then done + Words(s[1..], [])
    else Words(s[1..], word + [s[0]])
  }

  function StripNewline(line: Bytes): Bytes
  {
    if |line| > 0 && line[|line| - 1] == '\n' then line[..|line| - 1] else line
  }

  predicate IsNumericId(s: Bytes, prefix: Byte)
  {
    2 <= |s| <= 31 && s[0] == prefix && AllDigits(s[1..])
  }

  predicate IsPaneId(s: Bytes)
  {
    IsNumericId(s, '%')
  }

  predicate Continues(s: Bytes, i: nat, low: int, high: int)
  {
    i < |s| && low <= s[i] as int <= high
  }

  /** Well-formed UTF-8, by the table of section 4 of RFC 3629. */
  predicate IsUtf8(s: Bytes)
    decreases |s|
  {
    if s == [] then true
    else
      var b := s[0] as int;
      if b < 0x80 then IsUtf8(s[1..])
      else if 0xC2 <= b <= 0xDF then Continues(s, 1, 0x80, 0xBF) && IsUtf8(s[2..])
      else if 0xE0 <= b <= 0xEF then
        Continues(s, 1, if b == 0xE0 then 0xA0 else 0x80, if b == 0xED then 0x9F else 0xBF)
        && Continues(s, 2, 0x80, 0xBF) && IsUtf8(s[3..])
      else if 0xF0 <= b <= 0xF4 then
        Continues(s, 1, if b == 0xF0 then 0x90 else 0x80, if b == 0xF4 then 0x8F else 0xBF)
        && Continues(s, 2, 0x80, 0xBF) && Continues(s, 3, 0x80, 0xBF) && IsUtf8(s[4..])
      else false
  }

  /** A control character: C0, DEL, or C1 in its two-byte form. */
  predicate HasControl(s: Bytes)
  {
    exists i :: 0 <= i < |s| &&
      (s[i] as int < 0x20 || s[i] as int == 0x7F || (s[i] as int == 0xC2 && Continues(s, i + 1, 0x80, 0x9F)))
  }

  // ---- Guard markers ----

  datatype Marker = Absent | Malformed | Marker(time: nat, number: nat, flags: nat)

  const BEGIN: Bytes := "%begin "
  const END: Bytes := "%end "
  const ERROR: Bytes := "%error "

  function ParseMarker(line: Bytes, prefix: Bytes): (m: Marker)
    ensures m.Absent? <==> !(prefix <= line)
  {
    if !(prefix <= line) then Absent
    else
      var words := Words(StripNewline(line[|prefix|..]), []);
      if |words| != 3 then Malformed
      else
        var a, b, c := ParseUnsigned(words[0], U64_MAX), ParseUnsigned(words[1], U64_MAX),
          ParseUnsigned(words[2], U64_MAX);
        if a.None? || b.None? || c.None? then Malformed else Marker(a.value, b.value, c.value)
  }

  // ---- Escaped output ----

  predicate IsOctal(b: Byte)
  {
    '0' <= b <= '7'
  }

  /** Three octal digits in eight-bit arithmetic. */
  function OctalByte(a: Byte, b: Byte, c: Byte): Byte
    requires IsOctal(a) && IsOctal(b) && IsOctal(c)
  {
    (((a as int - '0' as int) * 64 + (b as int - '0' as int) * 8 + (c as int - '0' as int)) % 256) as char
  }

  /** The byte denoted at the front of `s` and how many bytes denote it. */
  function Escaped(s: Bytes): (r: Option<(Byte, nat)>)
    requires s != []
    ensures r.Some? ==> 1 <= r.value.1 <= |s|
  {
    if s[0] != '\\' then Some((s[0], 1))
    else if |s| < 2 then None
    else if s[1] == '\\' then Some(('\\', 2))
    else if |s| < 4 || !IsOctal(s[1]) || !IsOctal(s[2]) || !IsOctal(s[3]) then None
    else Some((OctalByte(s[1], s[2], s[3]), 4))
  }

  function Unescape(s: Bytes): Option<Bytes>
    decreases |s|
  {
    if s == [] then Some([])
    else
      var first := Escaped(s);
      if first.None? then None
      else
        var rest := Unescape(s[first.value.1..]);
        if rest.None? then None else Some([first.value.0] + rest.value)
  }

  function Prepended(data: Bytes, rest: Option<Bytes>): Option<Bytes>
  {
    if rest.None? then None else Some(data + rest.value)
  }

  lemma UnescapeStep(s: Bytes, done: Bytes)
    requires s != [] && Escaped(s).Some?
    ensures Prepended(done, Unescape(s)) == Prepended(done + [Escaped(s).value.0], Unescape(s[Escaped(s).value.1..]))
  {
    var rest := Unescape(s[Escaped(s).value.1..]);
    if rest.Some? {
      assert done + ([Escaped(s).value.0] + rest.value) == done + [Escaped(s).value.0] + rest.value;
    }
  }

  lemma UnescapeEdges(s: Bytes, done: Bytes)
    ensures s == [] ==> Prepended(done, Unescape(s)) == Some(done)
    ensures s != [] && Escaped(s).None? ==> Unescape(s) == None
    ensures Prepended([], Unescape(s)) == Unescape(s)
  {
    assert done + [] == done;
    if Unescape(s).Some? { assert [] + Unescape(s).value == Unescape(s).value; }
  }

  method DecodeEscaped(value: Bytes) returns (r: Result<Bytes>)
    ensures r == if Unescape(value).Some? then Ok(Unescape(value).value) else Err(Protocol)
  {
    var decoded: Bytes := [];
    var index := 0;
    assert value[0..] == value;
    UnescapeEdges(value, []);
    hide Unescape;
    while index < |value|
      invariant 0 <= index <= |value|
      invariant Unescape(value) == Prepended(decoded, Unescape(value[index..]))
    {
      ghost var rest := value[index..];
      UnescapeEdges(rest, decoded);
      if value[index] != '\\' {
        UnescapeStep(rest, decoded);
        assert rest[1..] == value[index + 1..];
        decoded := decoded + [value[index]];
        index := index + 1;
        continue;
      }
      if index + 1 >= |value| {
        return Err(Protocol);
      }
      if value[index + 1] == '\\' {
        UnescapeStep(rest, decoded);
        assert rest[2..] == value[index + 2..];
        decoded := decoded + ['\\'];
        index := index + 2;
        continue;
      }
      if index + 3 >= |value| || !IsOctal(value[index + 1]) || !IsOctal(value[index + 2])
        || !IsOctal(value[index + 3]) {
        assert Escaped(rest).None?;
        return Err(Protocol);
      }
      UnescapeStep(rest, decoded);
      assert rest[4..] == value[index + 4..];
      decoded := decoded + [OctalByte(value[index + 1], value[index + 2], value[index + 3])];
      index := index + 4;
    }
    UnescapeEdges(value[index..], decoded);
    return Ok(decoded);
  }

  function OctalDigit(n: nat): (b: Byte)
    requires n < 8
    ensures IsOctal(b) && b as int - '0' as int == n
  {
    ('0' as int + n) as char
  }

  /** How the target writes one byte of pane output on the control connection. */
  function EscapeByte(b: Byte): Bytes
  {
    if b as int < 32 || b == '\\'
    then ['\\', OctalDigit(b as int / 64), OctalDigit(b as int / 8 % 8), OctalDigit(b as int % 8)]
    else [b]
  }

  function Escape(data: Bytes): Bytes
  {
    if data == [] then [] else EscapeByte(data[0]) + Escape(data[1..])
  }

  lemma OctalDigits(b: Byte)
    ensures OctalByte(OctalDigit(b as int / 64), OctalDigit(b as int / 8 % 8), OctalDigit(b as int % 8)) == b
  {
    var n := b as int;
    assert n == n / 64 * 64 + n / 8 % 8 * 8 + n % 8;
  }

  /** Decoding gives back every byte string the target escaped. */
  lemma {:induction false} UnescapeInvertsEscape(data: Bytes)
    ensures Unescape(Escape(data)) == Some(data)
  {
    if data != [] {
      assert data == [data[0]] + data[1..];
      UnescapeInvertsEscape(data[1..]);
      var first, rest := EscapeByte(data[0]), Escape(data[1..]);
      var s := first + rest;
      assert s[|first|..] == rest;
      if |first| == 4 {
        assert s[0] == first[0] && s[1] == first[1] && s[2] == first[2] && s[3] == first[3];
        assert s[1] != '\\';
        OctalDigits(data[0]);
        assert Escaped(s) == Some((data[0], 4));
      } else {
        assert s[0] == data[0];
      }
    }
  }

  // ---- Notifications ----

  datatype Note = Output(pane: Bytes, data: Bytes) | Refresh | Exit | Quiet | Unknown

  const OUTPUT: Bytes := "%output "
  const EXTENDED: Bytes := "%extended-output "
  const PAUSE: Bytes := "%pause "
  const CONTINUE: Bytes := "%continue "

  predicate IsRefresh(line: Bytes)
  {
    line == "%sessions-changed" || "%layout-change " <= line || "%pane-mode-changed " <= line
    || "%session-changed " <= line || "%session-renamed " <= line || "%session-window-changed " <= line
    || "%subscription-changed " <= line || "%window-add " <= line || "%window-close " <= line
    || "%window-pane-changed " <= line || "%window-renamed " <= line
  }

  predicate IsIgnorable(line: Bytes)
  {
    "%client-active " <= line || "%client-detached " <= line || "%client-session-changed " <= line
    || "%client-window-changed " <= line || "%message " <= line || "%paste-buffer-changed " <= line
    || "%paste-buffer-deleted " <= line || "%unlinked-window-add " <= line
    || "%unlinked-window-close " <= line || "%unlinked-window-renamed " <= line
  }

  predicate IsExit(line: Bytes)
  {
    line == "%exit" || "%exit " <= line
  }

  /** Where the first " : " starts. */
  function Separator(s: Bytes): (i: Option<nat>)
    ensures i.Some? ==> i.value + 3 <= |s|
  {
    if |s| < 3 then None
    else if s[0] == ' ' && s[1] == ':' && s[2] == ' ' then Some(0)
    else
      var rest := Separator(s[1..]);
      if rest.None? then None else Some(rest.value + 1)
  }

  function OutputNote(pane: Bytes, encoded: Bytes): Note
  {
    if !IsPaneId(pane) || Unescape(encoded).None? then Unknown else Output(pane, Unescape(encoded).value)
  }

  /** Pane and still-escaped data of an output record. */
  function OutputParts(line: Bytes): Option<(Bytes, Bytes)>
    requires OUTPUT <= line || EXTENDED <= line
  {
    var rest := if OUTPUT <= line then line[|OUTPUT|..] else line[|EXTENDED|..];
    var space := IndexOf(rest, ' ');
    if space.None? then None
    else
      var tail := rest[space.value + 1..];
      if OUTPUT <= line then Some((rest[..space.value], tail))
      else
        var colon := Separator(tail);
        if colon.None? || colon.value == 0 || !AllDigits(tail[..colon.value]) then None
        else Some((rest[..space.value], tail[colon.value + 3..]))
  }

  /** What one record outside every guarded response announces. */
  function Parse(record: Bytes): Note
  {
    var line := StripNewline(record);
    if OUTPUT <= line || EXTENDED <= line then
      var parts := OutputParts(line);
      if parts.None? then Unknown else OutputNote(parts.value.0, parts.value.1)
    else if IsExit(line) then Exit
    else if PAUSE <= line then (if IsPaneId(line[|PAUSE|..]) then Refresh else Unknown)
    else if CONTINUE <= line then (if IsPaneId(line[|CONTINUE|..]) then Quiet else Unknown)
    else if IsRefresh(line) then Refresh
    else if IsIgnorable(line) then Quiet
    else Unknown
  }

  // ---- Windows and panes ----

  datatype WindowSummary = WindowSummary(id: Bytes, name: Bytes, active: bool)

  datatype Window = Window(id: Bytes, name: Bytes, width: nat, height: nat, layout: Bytes)

  datatype Modes = Modes(
    alternate: bool, visible: bool, insert: bool, cursorKeys: bool, keypad: bool, origin: bool, wrap: bool)

  datatype Screen = Screen(cursorX: nat, cursorY: nat, modes: Modes, upper: nat, lower: nat)

  datatype Pane = Pane(
    id: Bytes, active: bool, width: nat, height: nat, left: nat, top: nat,
    title: Bytes, command: Bytes, screen: Screen)

  predicate TextOk(s: Bytes, max: nat)
  {
    |s| <= max && !HasControl(s)
  }

  predicate SummaryOk(w: WindowSummary)
  {
    IsNumericId(w.id, '@') && TextOk(w.name, MAX_NAME)
  }

  predicate WindowOk(w: Window)
  {
    IsNumericId(w.id, '@') && TextOk(w.name, MAX_NAME) && 1 <= w.width <= MAX_DIMENSION
      && 1 <= w.height <= MAX_DIMENSION
    && w.width * w.height <= MAX_GRID_CELLS && 1 <= |w.layout| <= MAX_LAYOUT && IsGraphic(w.layout)
  }

  predicate LabelsOk(p: Pane)
  {
    TextOk(p.title, MAX_TEXT) && TextOk(p.command, MAX_TEXT)
  }

  function SingleLine(rows: seq<Bytes>): Result<Bytes>
  {
    if |rows| != 1 || !IsUtf8(rows[0]) then Err(Protocol) else Ok(rows[0])
  }

  function SafeText(rows: seq<Bytes>, max: nat): (r: Result<Bytes>)
    ensures r.Ok? ==> TextOk(r.value, max)
  {
    var line := SingleLine(rows);
    if line.Err? then line
    else if |line.value| > max || HasControl(line.value) then Err(Protocol)
    else line
  }

  function ParseFlag(s: Bytes): Option<bool>
  {
    if s == "0" then Some(false) else if s == "1" then Some(true) else None
  }

  function ParseDimension(s: Bytes): (n: Option<nat>)
    ensures n.Some? ==> 1 <= n.value <= MAX_DIMENSION
  {
    var n := ParseUnsigned(s, U32_MAX);
    if n.None? || n.value == 0 || n.value > MAX_DIMENSION then None else n
  }

  function ParseCoordinate(s: Bytes, bound: nat): (n: Option<nat>)
    ensures n.Some? ==> n.value < bound
  {
    var n := ParseUnsigned(s, U32_MAX);
    if n.None? || n.value >= MAX_DIMENSION || n.value >= bound then None else n
  }

  function ParseModes(f: seq<Bytes>): Option<Modes>
    requires |f| == 7
  {
    if exists i :: 0 <= i < 7 && ParseFlag(f[i]).None? then None
    else
      Some(Modes(ParseFlag(f[0]).value, ParseFlag(f[1]).value, ParseFlag(f[2]).value, ParseFlag(f[3]).value,
                 ParseFlag(f[4]).value, ParseFlag(f[5]).value, ParseFlag(f[6]).value))
  }

  function ParseScreen(f: seq<Bytes>, width: nat, height: nat): Result<Screen>
    requires |f| == 18
  {
    var x, y := ParseCoordinate(f[7], width), ParseCoordinate(f[8], height);
    var modes := ParseModes(f[9..16]);
    var upper, lower := ParseCoordinate(f[16], height), ParseCoordinate(f[17], height);
    if x.None? || y.None? || modes.None? || upper.None? || lower.None? then Err(Protocol)
    else if upper.value > lower.value || (y.value < upper.value && modes.value.origin) then Err(Protocol)
    else Ok(Screen(x.value, y.value, modes.value, upper.value, lower.value))
  }

  /** What the row parser guarantees of every pane it accepts. */
  predicate PaneOk(p: Pane)
  {
    IsPaneId(p.id) && 1 <= p.width <= MAX_DIMENSION && 1 <= p.height <= MAX_DIMENSION
    && p.screen.cursorX < p.width && p.screen.cursorY < p.height
    && p.screen.upper <= p.screen.lower < p.height
    && (p.screen.modes.origin ==> p.screen.upper <= p.screen.cursorY)
  }

  predicate Inside(p: Pane, w: Window)
  {
    p.left < w.width && p.top < w.height && p.left + p.width <= w.width && p.top + p.height <= w.height
  }

  function ParsePaneRow(row: Bytes, window: Window): (r: Result<Pane>)
    ensures r.Ok? ==> PaneOk(r.value) && Inside(r.value, window)
  {
    var f := Fields(row, |row| + 2);
    if !IsUtf8(row) || |f| != 18 || !IsPaneId(f[0]) then Err(Protocol)
    else if f[1] != window.id then Err(Changed)
    else
      var active, width, height := ParseFlag(f[2]), ParseDimension(f[3]), ParseDimension(f[4]);
      var left, top := ParseCoordinate(f[5], MAX_DIMENSION), ParseCoordinate(f[6], MAX_DIMENSION);
      if active.None? || width.None? || height.None? || left.None? || top.None? then Err(Protocol)
      else if left.value >= window.width || top.value >= window.height
           || left.value + width.value > window.width || top.value + height.value > window.height then Err(Changed)
      else
        var screen := ParseScreen(f, width.value, height.value);
        if screen.Err? then Err(screen.error)
        else Ok(Pane(f[0], active.value, width.value, height.value, left.value, top.value, [], [], screen.value))
  }

  function Ids(panes: seq<Pane>): (ids: seq<Bytes>)
    ensures |ids| == |panes| && forall i :: 0 <= i < |ids| ==> ids[i] == panes[i].id
  {
    seq(|panes|, i requires 0 <= i < |panes| => panes[i].id)
  }

  predicate Distinct(ids: seq<Bytes>)
  {
    forall i, j :: 0 <= i < j < |ids| ==> ids[i] != ids[j]
  }

  function ActiveCount(panes: seq<Pane>): nat
  {
    if panes == [] then 0 else (if panes[|panes| - 1].active then 1 else 0) + ActiveCount(panes[..|panes| - 1])
  }

  function Cells(panes: seq<Pane>): nat
  {
    if panes == [] then 0 else panes[|panes| - 1].width * panes[|panes| - 1].height + Cells(panes[..|panes| - 1])
  }

  /** What the row list parser guarantees of the panes of a window. */
  predicate PanesOk(panes: seq<Pane>)
  {
    1 <= |panes| <= MAX_PANES && Distinct(Ids(panes)) && ActiveCount(panes) == 1 && Cells(panes) <= MAX_GRID_CELLS
    && forall i :: 0 <= i < |panes| ==> PaneOk(panes[i])
  }

  lemma DistinctEmpty()
    ensures Distinct(Ids([]))
  {
  }

  lemma DistinctExtends(panes: seq<Pane>, pane: Pane)
    requires Distinct(Ids(panes)) && forall k :: 0 <= k < |panes| ==> panes[k].id != pane.id
    ensures Distinct(Ids(panes + [pane]))
  {
  }

  predicate AllParse(rows: seq<Bytes>, window: Window)
  {
    forall i :: 0 <= i < |rows| ==> ParsePaneRow(rows[i], window).Ok?
  }

  function Panes(rows: seq<Bytes>, window: Window): (panes: seq<Pane>)
    requires AllParse(rows, window)
    ensures |panes| == |rows| && forall i :: 0 <= i < |rows| ==> ParsePaneRow(rows[i], window) == Ok(panes[i])
  {
    seq(|rows|, i requires 0 <= i < |rows| => ParsePaneRow(rows[i], window).value)
  }

  /** Row lists are accepted exactly when every row is and the panes together are well-formed. */
  method ParsePaneRows(rows: seq<Bytes>, window: Window) returns (r: Result<seq<Pane>>)
    ensures r.Ok? <==> AllParse(rows, window) && PanesOk(Panes(rows, window))
    ensures r.Ok? ==> r.value == Panes(rows, window) && forall i :: 0 <= i < |rows| ==> Inside(r.value[i], window)
    ensures r.Err? && 1 <= |rows| <= MAX_PANES && AllParse(rows, window) ==>
              r.error == Protocol || r.error == ProjectionTooLarge
  {
    hide ParsePaneRow, PaneOk, Inside, Cells, ActiveCount, Distinct;
    if |rows| == 0 || |rows| > MAX_PANES {
      return Err(TooManyPanes);
    }
    DistinctEmpty();
    var panes: seq<Pane> := [];
    var seen: set<Bytes> := {};
    for i := 0 to |rows|
      invariant |panes| == i
      invariant forall k :: 0 <= k < i ==>
                  ParsePaneRow(rows[k], window) == Ok(panes[k]) && PaneOk(panes[k]) && Inside(panes[k], window)
      invariant forall id :: id in seen <==> exists k :: 0 <= k < i && panes[k].id == id
      invariant Distinct(Ids(panes))
    {
      var pane := ParsePaneRow(rows[i], window);
      if pane.Err? {
        return Err(pane.error);
      }
      if pane.value.id in seen {
        if AllParse(rows, window) {
          ghost var k :| 0 <= k < i && panes[k].id == pane.value.id;
          NotDistinct(Panes(rows, window), k, i);
        }
        return Err(Protocol);
      }
      DistinctExtends(panes, pane.value);
      seen := seen + {pane.value.id};
      panes := panes + [pane.value];
    }
    assert AllParse(rows, window) && panes == Panes(rows, window);
    if ActiveCount(panes) != 1 {
      return Err(Protocol);
    }
    if Cells(panes) > MAX_GRID_CELLS {
      return Err(ProjectionTooLarge);
    }
    return Ok(panes);
  }

  lemma NotDistinct(panes: seq<Pane>, i: nat, j: nat)
    requires i < j < |panes| && panes[i].id == panes[j].id
    ensures !Distinct(Ids(panes))
  {
    assert Ids(panes)[i] == Ids(panes)[j];
  }

  predicate SameStructure(a: Pane, b: Pane)
  {
    a.id == b.id && a.active == b.active && a.width == b.width && a.height == b.height && a.left == b.left
      && a.top == b.top
  }

  /** Relabelling and new terminal states change neither identities nor budgets. */
  lemma {:induction false} StructureCounts(a: seq<Pane>, b: seq<Pane>)
    requires |a| == |b| && forall i :: 0 <= i < |a| ==> SameStructure(a[i], b[i])
    ensures Ids(a) == Ids(b) && ActiveCount(a) == ActiveCount(b) && Cells(a) == Cells(b)
  {
    if a != [] {
      StructureCounts(a[..|a| - 1], b[..|b| - 1]);
    }
  }

  function ParseWindowRow(row: Bytes): (w: Option<WindowSummary>)
    ensures w.Some? ==> SummaryOk(w.value)
  {
    var f := Fields(row, 3);
    if !IsUtf8(row) || |f| != 3 || ParseFlag(f[1]).None? || !IsNumericId(f[0], '@')
       || |f[2]| > MAX_NAME || HasControl(f[2]) then None
    else Some(WindowSummary(f[0], f[2], ParseFlag(f[1]).value))
  }

  /** The rows' windows, or nothing when a row is malformed or repeats an identity. */
  function ParseWindowRows(rows: seq<Bytes>): (windows: Option<seq<WindowSummary>>)
    ensures windows.Some? ==> |windows.value| == |rows| && forall i :: 0 <= i < |rows| ==> SummaryOk(windows.value[i])
    ensures windows.Some? ==> forall i, j :: 0 <= i < j < |rows| ==> windows.value[i].id != windows.value[j].id
  {
    if rows == [] then Some([])
    else
      var front, last := ParseWindowRows(rows[..|rows| - 1]), ParseWindowRow(rows[|rows| - 1]);
      if front.None? || last.None? || (exists w :: w in front.value && w.id == last.value.id) then None
      else Some(front.value + [last.value])
  }

  /** The active windows, in order. */
  function ActiveWindows(windows: seq<WindowSummary>): seq<WindowSummary>
  {
    if windows == [] then []
    else
      var last := windows[|windows| - 1];
      ActiveWindows(windows[..|windows| - 1]) + if last.active then [last] else []
  }

  predicate WindowsOk(windows: seq<WindowSummary>)
  {
    1 <= |windows| <= MAX_WINDOWS && |ActiveWindows(windows)| == 1
    && (forall i :: 0 <= i < |windows| ==> SummaryOk(windows[i]))
    && forall i, j :: 0 <= i < j < |windows| ==> windows[i].id != windows[j].id
  }

  function ParseWindows(rows: seq<Bytes>): (r: Result<seq<WindowSummary>>)
    ensures r.Ok? ==> WindowsOk(r.value)
  {
    if |rows| == 0 || |rows| > MAX_WINDOWS then Err(Protocol)
    else
      var windows := ParseWindowRows(rows);
      if windows.None? || |ActiveWindows(windows.value)| != 1 then Err(Protocol) else Ok(windows.value)
  }

  predicate IsGraphic(s: Bytes)
  {
    forall i :: 0 <= i < |s| ==> '!' <= s[i] <= '~'
  }

  /** The active window's geometry; its name comes from a second command. */
  function ParseWindow(rows: seq<Bytes>, session: Bytes, created: int): (r: Result<Window>)
    ensures r.Ok? ==> WindowOk(r.value)
  {
    var line := SingleLine(rows);
    if line.Err? then Err(line.error)
    else
      var f := Fields(line.value, 6);
      if |f| < 6 then Err(Protocol)
      else
        var observed := ParseUnsigned(f[1], I64_MAX);
        var width, height := ParseDimension(f[3]), ParseDimension(f[4]);
        if observed.None? || observed.value == 0 || width.None? || height.None? then Err(Protocol)
        else if width.value * height.value > MAX_GRID_CELLS then Err(ProjectionTooLarge)
        else if f[0] != session || observed.value != created || !IsNumericId(f[2], '@')
             || |f[5]| == 0 || |f[5]| > MAX_LAYOUT || !IsGraphic(f[5]) then Err(Changed)
        else Ok(Window(f[2], [], width.value, height.value, f[5]))
  }
}
