/** The pane format read backwards: every well-formed pane has a row that the parser accepts as it. */
module PaneRows {
  import opened Common
  import opened Tmux
  import opened Terminal

  function Colons(fields: seq<Bytes>): Bytes
    requires fields != []
  {
    if |fields| == 1 then fields[0] else fields[0] + [':'] + Colons(fields[1..])
  }

  predicate Plain(s: Bytes)
  {
    forall i :: 0 <= i < |s| ==> s[i] as int < 0x80 && s[i] != ':'
  }

  predicate AllPlain(fields: seq<Bytes>)
  {
    forall i :: 0 <= i < |fields| ==> Plain(fields[i])
  }

  lemma IndexOfFirst(a: Bytes, b: Bytes)
    requires ':' !in a
    ensures IndexOf(a + [':'] + b, ':') == Some(|a|)
  {
    var s := a + [':'] + b;
    assert s[|a|] == ':';
    assert ':' in s;
    assert forall k :: 0 <= k < |a| ==> s[k] == a[k] && a[k] in a;
    forall j | |a| < j <= |s| ensures ':' in s[..j] {
      assert s[..j][|a|] == ':';
    }
  }

  lemma FieldsFirst(first: Bytes, rest: Bytes, n: nat)
    requires ':' !in first && n >= 2
    ensures Fields(first + [':'] + rest, n) == [first] + Fields(rest, n - 1)
  {
    var s := first + [':'] + rest;
    IndexOfFirst(first, rest);
    assert s[..|first|] == first && s[|first| + 1..] == rest;
  }

  /** Splitting at colons gives back the fields that were joined. */
  lemma {:induction false} FieldsOfColons(fields: seq<Bytes>, n: nat)
    requires fields != [] && AllPlain(fields) && n >= |fields|
    ensures Fields(Colons(fields), n) == fields
    decreases |fields|
  {
    var first := fields[0];
    assert Plain(first) && ':' !in first;
    if |fields| == 1 {
      assert fields == [first];
    } else {
      var rest := fields[1..];
      FieldsOfColons(rest, n - 1);
      hide Plain;
      FieldsFirst(first, Colons(rest), n);
      assert fields == [first] + rest;
    }
  }

  lemma {:induction false} ColonsAscii(fields: seq<Bytes>)
    requires fields != [] && AllPlain(fields)
    ensures forall i :: 0 <= i < |Colons(fields)| ==> Colons(fields)[i] as int < 0x80
    ensures |Colons(fields)| + 1 >= |fields|
    decreases |fields|
  {
    assert Plain(fields[0]);
    if |fields| > 1 {
      ColonsAscii(fields[1..]);
    }
  }

  lemma {:induction false} AsciiIsUtf8(s: Bytes)
    requires forall i :: 0 <= i < |s| ==> s[i] as int < 0x80
    ensures IsUtf8(s)
    decreases |s|
  {
    if s != [] {
      AsciiIsUtf8(s[1..]);
    }
  }

  // ---- Numbers ----

  lemma {:induction false} DecimalValue(n: nat)
    ensures Value(Decimal(n)) == n
  {
    var s := Decimal(n);
    if n >= 10 {
      DecimalValue(n / 10);
      assert s[..|s| - 1] == Decimal(n / 10);
    } else {
      assert s[..0] == [];
    }
  }

  /** A written number reads back as itself and can stand in a row. */
  lemma DecimalParses(n: nat, max: nat)
    requires n <= max
    ensures ParseUnsigned(Decimal(n), max) == Some(n) && Plain(Decimal(n))
  {
    DecimalValue(n);
    var s := Decimal(n);
    hide Decimal, Value;
    assert forall i :: 0 <= i < |s| ==> IsDigit(s[i]);
    assert s[0] != '+';
  }

  // ---- Rows ----

  function Flag(b: bool): Bytes
  {
    if b then "1" else "0"
  }

  lemma FlagParses(b: bool)
    ensures ParseFlag(Flag(b)) == Some(b) && Plain(Flag(b))
  {
  }

  function ModeFields(m: Modes): (f: seq<Bytes>)
    ensures |f| == 7
  {
    [Flag(m.alternate), Flag(m.visible), Flag(m.insert), Flag(m.cursorKeys), Flag(m.keypad), Flag(m.origin),
      Flag(m.wrap)]
  }

  function RowFields(p: Pane, w: Window): (f: seq<Bytes>)
    ensures |f| == 18
  {
    PlaceFields(p, w) + ModeFields(p.screen.modes) + [Decimal(p.screen.upper), Decimal(p.screen.lower)]
  }

  function PlaceFields(p: Pane, w: Window): (f: seq<Bytes>)
    ensures |f| == 9
  {
    [p.id, w.id, Flag(p.active), Decimal(p.width), Decimal(p.height), Decimal(p.left), Decimal(p.top),
     Decimal(p.screen.cursorX), Decimal(p.screen.cursorY)]
  }

  function Row(p: Pane, w: Window): Bytes
  {
    Colons(RowFields(p, w))
  }

  lemma IdIsPlain(s: Bytes, prefix: Byte)
    requires IsNumericId(s, prefix) && (prefix == '%' || prefix == '@')
    ensures Plain(s)
  {
    forall i | 0 <= i < |s| ensures s[i] as int < 0x80 && s[i] != ':' {
      if i > 0 { assert IsDigit(s[1..][i - 1]); }
    }
  }

  lemma ModesParse(m: Modes)
    ensures ParseModes(ModeFields(m)) == Some(m) && AllPlain(ModeFields(m))
  {
    FlagParses(m.alternate);
    FlagParses(m.visible);
    FlagParses(m.insert);
    FlagParses(m.cursorKeys);
    FlagParses(m.keypad);
    FlagParses(m.origin);
    FlagParses(m.wrap);
    hide Flag, ParseFlag, Plain;
    var f := ModeFields(m);
    assert forall i :: 0 <= i < 7 ==> ParseFlag(f[i]).Some?;
  }

  lemma NumbersParse(p: Pane, w: Window)
    requires PaneOk(p) && Inside(p, w) && WindowOk(w)
    ensures ParseDimension(Decimal(p.width)) == Some(p.width) && ParseDimension(Decimal(p.height)) == Some(p.height)
    ensures ParseCoordinate(Decimal(p.left), MAX_DIMENSION) == Some(p.left)
    ensures ParseCoordinate(Decimal(p.top), MAX_DIMENSION) == Some(p.top)
    ensures ParseCoordinate(Decimal(p.screen.cursorX), p.width) == Some(p.screen.cursorX)
    ensures ParseCoordinate(Decimal(p.screen.cursorY), p.height) == Some(p.screen.cursorY)
    ensures ParseCoordinate(Decimal(p.screen.upper), p.height) == Some(p.screen.upper)
    ensures ParseCoordinate(Decimal(p.screen.lower), p.height) == Some(p.screen.lower)
  {
    hide Decimal, ParseUnsigned, Plain, IsPaneId, TextOk, IsGraphic, IsNumericId;
    DecimalParses(p.width, U32_MAX);
    DecimalParses(p.height, U32_MAX);
    DecimalParses(p.left, U32_MAX);
    DecimalParses(p.top, U32_MAX);
    DecimalParses(p.screen.cursorX, U32_MAX);
    DecimalParses(p.screen.cursorY, U32_MAX);
    DecimalParses(p.screen.upper, U32_MAX);
    DecimalParses(p.screen.lower, U32_MAX);
  }

  lemma DecimalPlain(n: nat)
    ensures Plain(Decimal(n))
  {
    DecimalParses(n, n);
  }

  lemma PlacePlain(p: Pane, w: Window)
    requires IsPaneId(p.id) && IsNumericId(w.id, '@')
    ensures AllPlain(PlaceFields(p, w))
  {
    hide Plain, Decimal, Flag, IsNumericId;
    IdIsPlain(p.id, '%');
    IdIsPlain(w.id, '@');
    FlagParses(p.active);
    DecimalPlain(p.width);
    DecimalPlain(p.height);
    DecimalPlain(p.left);
    DecimalPlain(p.top);
    DecimalPlain(p.screen.cursorX);
    DecimalPlain(p.screen.cursorY);
  }

  lemma PlainAppend(a: seq<Bytes>, b: seq<Bytes>)
    requires AllPlain(a) && AllPlain(b)
    ensures AllPlain(a + b)
  {
    hide Plain;
  }

  lemma FieldsPlain(p: Pane, w: Window)
    requires IsPaneId(p.id) && IsNumericId(w.id, '@')
    ensures AllPlain(RowFields(p, w))
  {
    hide Plain, Decimal, PlaceFields, ModeFields, IsPaneId, IsNumericId, ParseModes;
    PlacePlain(p, w);
    ModesParse(p.screen.modes);
    DecimalPlain(p.screen.upper);
    DecimalPlain(p.screen.lower);
    PlainAppend(PlaceFields(p, w), ModeFields(p.screen.modes));
    PlainAppend(PlaceFields(p, w) + ModeFields(p.screen.modes), [Decimal(p.screen.upper), Decimal(p.screen.lower)]);
  }

  lemma ScreenParses(p: Pane, w: Window)
    requires PaneOk(p) && Inside(p, w) && WindowOk(w)
    ensures ParseScreen(RowFields(p, w), p.width, p.height) == Ok(p.screen)
  {
    NumbersParse(p, w);
    ModesParse(p.screen.modes);
    hide Decimal, ModeFields, ParseModes, ParseCoordinate, IsPaneId, TextOk, IsGraphic, IsNumericId, AllPlain, Flag;
    assert RowFields(p, w)[9..16] == ModeFields(p.screen.modes);
  }

  /** The parser accepts every well-formed pane from its row, and reads it back exactly. */
  lemma RowParses(p: Pane, w: Window)
    requires PaneOk(p) && Inside(p, w) && WindowOk(w) && p.title == [] && p.command == []
    ensures ParsePaneRow(Row(p, w), w) == Ok(p)
  {
    hide Decimal, Flag, ParseFlag, ParseScreen, ParseCoordinate, ParseDimension, ModeFields, Fields, IsUtf8, Colons;
    hide AllPlain, Plain, TextOk, IsGraphic, IsNumericId;
    var f, row := RowFields(p, w), Row(p, w);
    FieldsPlain(p, w);
    ColonsAscii(f);
    AsciiIsUtf8(row);
    FieldsOfColons(f, |row| + 2);
    FlagParses(p.active);
    NumbersParse(p, w);
    ScreenParses(p, w);
    assert f[0] == p.id && f[1] == w.id && f[2] == Flag(p.active) && f[3] == Decimal(p.width)
      && f[4] == Decimal(p.height);
    assert f[5] == Decimal(p.left) && f[6] == Decimal(p.top);
  }
}
