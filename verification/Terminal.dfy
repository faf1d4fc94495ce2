/**
  A terminal reading bytes one at a time: printing with autowrap and insertion, scrolling within
  the margins, and the control sequences a pane snapshot uses.
 */
module Terminal {
  import opened Common
  import opened Tmux

  const ESC: Byte := 27 as char

  datatype Parser = Ground | Escape | Csi(private: bool, done: seq<nat>, current: Option<nat>)

  /** `wrapped`: the last column was just written, so the next character starts a new row. */
  datatype Display = Display(
    width: nat, height: nat, rows: seq<Bytes>, x: nat, y: nat, wrapped: bool,
    upper: nat, lower: nat, modes: Modes, parser: Parser)

  predicate Valid(t: Display)
  {
    t.x < t.width && t.y < t.height && t.upper <= t.lower < t.height
    && |t.rows| == t.height && forall i :: 0 <= i < t.height ==> |t.rows[i]| == t.width
  }

  function Blank(width: nat): (row: Bytes)
    ensures |row| == width && forall i :: 0 <= i < width ==> row[i] == ' '
  {
    seq(width, _ => ' ')
  }

  function BlankRows(width: nat, height: nat): (rows: seq<Bytes>)
    ensures |rows| == height && forall i :: 0 <= i < height ==> rows[i] == Blank(width)
  {
    seq(height, _ => Blank(width))
  }

  const DefaultModes := Modes(false, true, false, false, false, false, true)

  /** Full reset (RIS). */
  function Reset(t: Display): (r: Display)
    requires Valid(t)
    ensures Valid(r)
  {
    Display(t.width, t.height, BlankRows(t.width, t.height), 0, 0, false, 0, t.height - 1, DefaultModes, Ground)
  }

  /** The next row, scrolling the region when the cursor is on its last row. */
  function LineFeed(t: Display): (r: Display)
    requires Valid(t)
    ensures Valid(r)
  {
    if t.y == t.lower then
      t.(rows := t.rows[..t.upper] + t.rows[t.upper + 1..t.lower + 1] + [Blank(t.width)] + t.rows[t.lower + 1..])
    else if t.y < t.height - 1 then t.(y := t.y + 1)
    else t
  }

  function Print(t: Display, b: Byte): (r: Display)
    requires Valid(t)
    ensures Valid(r)
  {
    var u := if t.wrapped && t.modes.wrap then LineFeed(t.(x := 0, wrapped := false)) else t;
    var row := u.rows[u.y];
    var row' := if u.modes.insert then row[..u.x] + [b] + row[u.x..u.width - 1] else row[u.x := b];
    var v := u.(rows := u.rows[u.y := row']);
    if u.x == u.width - 1 then v.(wrapped := true) else v.(x := u.x + 1)
  }

  function Clamp(n: int, low: nat, high: nat): nat
    requires low <= high
  {
    if n < low then low else if n > high then high else n
  }

  /** Cursor position (CUP), relative to the region and confined to it under origin mode. */
  function MoveTo(t: Display, row: nat, column: nat): (r: Display)
    requires Valid(t)
    ensures Valid(r)
  {
    t.(x := Clamp(column - 1, 0, t.width - 1),
       y := if t.modes.origin then Clamp(t.upper + row - 1, t.upper, t.lower) else Clamp(row - 1, 0, t.height - 1),
       wrapped := false)
  }

  /** Scroll margins (DECSTBM): a region of fewer than two rows is ignored; otherwise the cursor goes home. */
  function SetMargins(t: Display, top: nat, bottom: nat): (r: Display)
    requires Valid(t)
    ensures Valid(r)
  {
    if 1 <= top < bottom <= t.height then MoveTo(t.(upper := top - 1, lower := bottom - 1), 1, 1) else t
  }

  function SetPrivate(t: Display, n: nat, on: bool): (r: Display)
    requires Valid(t)
    ensures Valid(r)
  {
    if n == 1 then t.(modes := t.modes.(cursorKeys := on))
    else if n == 6 then MoveTo(t.(modes := t.modes.(origin := on)), 1, 1)
    else if n == 7 then t.(modes := t.modes.(wrap := on))
    else if n == 25 then t.(modes := t.modes.(visible := on))
    else if n == 1049 then t.(modes := t.modes.(alternate := on), rows := BlankRows(t.width, t.height))
    else t
  }

  /** A parameter, with the value an absent or zero one stands for. */
  function Param(params: seq<nat>, i: nat, default: nat): nat
  {
    if i < |params| && params[i] > 0 then params[i] else default
  }

  function Execute(t: Display, final: Byte, private: bool, params: seq<nat>): (r: Display)
    requires Valid(t)
    ensures Valid(r)
  {
    if private then
      if (final == 'h' || final == 'l') && |params| > 0 then SetPrivate(t, params[0], final == 'h') else t
    else if final == 'H' then MoveTo(t, Param(params, 0, 1), Param(params, 1, 1))
    else if final == 'r' then SetMargins(t, Param(params, 0, 1), Param(params, 1, t.height))
    else if final == 'J' then (if params == [2] then t.(rows := BlankRows(t.width, t.height)) else t)
    else if final == 'h' || final == 'l' then
      if params == [4] then t.(modes := t.modes.(insert := final == 'h')) else t
    else t
  }

  function Finished(p: Parser): seq<nat>
    requires p.Csi?
  {
    p.done + (if p.current.Some? then [p.current.value] else if p.done != [] then [0] else [])
  }

  function FeedCsi(t: Display, b: Byte): (r: Display)
    requires Valid(t) && t.parser.Csi?
    ensures Valid(r)
  {
    var p := t.parser;
    if b == '?' && p == Csi(false, [], None) then t.(parser := Csi(true, [], None))
    else if IsDigit(b) then
      t.(parser := p.(current := Some((if p.current.Some? then 10 * p.current.value else 0) + (b as int - '0' as int))))
    else if b == ';' then
      t.(parser := p.(done := p.done + [if p.current.Some? then p.current.value else 0], current := None))
    else Execute(t.(parser := Ground), b, p.private, Finished(p))
  }

  function Feed(t: Display, b: Byte): (r: Display)
    requires Valid(t)
    ensures Valid(r)
  {
    if b == ESC then t.(parser := Escape)
    else
      match t.parser
      case Ground =>
        if b == '\r' then t.(x := 0, wrapped := false)
        else if b == '\n' then LineFeed(t)
        else if ' ' <= b <= '~' then Print(t, b)
        else t
      case Escape =>
        if b == 'c' then Reset(t)
        else if b == '[' then t.(parser := Csi(false, [], None))
        else if b == '=' || b == '>' then t.(parser := Ground, modes := t.modes.(keypad := b == '='))
        else t.(parser := Ground)
      case Csi(_, _, _) => FeedCsi(t, b)
  }

  function Run(t: Display, s: Bytes): (r: Display)
    requires Valid(t)
    ensures Valid(r)
    decreases |s|
  {
    if s == [] then t else Run(Feed(t, s[0]), s[1..])
  }

  lemma {:induction false} RunSplit(t: Display, a: Bytes, b: Bytes)
    requires Valid(t)
    ensures Run(t, a + b) == Run(Run(t, a), b)
    decreases |a|
  {
    if a == [] {
      assert a + b == b;
    } else {
      assert (a + b)[0] == a[0] && (a + b)[1..] == a[1..] + b;
      RunSplit(Feed(t, a[0]), a[1..], b);
    }
  }

  lemma RunOne(t: Display, b: Byte)
    requires Valid(t)
    ensures Run(t, [b]) == Feed(t, b)
  {
    assert [b][1..] == [];
  }

  // ---- Numbers ----

  function Decimal(n: nat): (s: Bytes)
    ensures |s| > 0 && AllDigits(s)
  {
    var digit: Byte := ('0' as int + n % 10) as char;
    if n < 10 then [digit] else Decimal(n / 10) + [digit]
  }

  /** A written number is read back as one parameter. */
  lemma {:induction false} RunDecimal(t: Display, n: nat)
    requires Valid(t) && t.parser.Csi? && t.parser.current == None
    ensures Run(t, Decimal(n)) == t.(parser := t.parser.(current := Some(n)))
  {
    var digit: Byte := ('0' as int + n % 10) as char;
    if n < 10 {
      RunOne(t, digit);
    } else {
      RunDecimal(t, n / 10);
      RunSplit(t, Decimal(n / 10), [digit]);
      RunOne(Run(t, Decimal(n / 10)), digit);
    }
  }

  // ---- Control sequences ----

  function Sequence(private: bool, params: seq<nat>, final: Byte): Bytes
    requires 1 <= |params| <= 2
  {
    [ESC, '['] + (if private then ['?'] else []) + Params(params) + [final]
  }

  function Params(params: seq<nat>): Bytes
    requires 1 <= |params| <= 2
  {
    Decimal(params[0]) + (if |params| == 2 then [';'] + Decimal(params[1]) else [])
  }

  predicate IsFinal(b: Byte)
  {
    '@' <= b <= '~'
  }

  lemma RunPrefix(t: Display, private: bool)
    requires Valid(t)
    ensures Run(t, [ESC, '['] + (if private then ['?'] else [])) == t.(parser := Csi(private, [], None))
  {
    var s: Bytes := [ESC, '['];
    assert s[1..] == ['['];
    RunOne(t.(parser := Escape), '[');
    assert Run(t, s) == t.(parser := Csi(false, [], None));
    if private {
      RunSplit(t, s, ['?']);
      RunOne(Run(t, s), '?');
    } else {
      assert s + [] == s;
    }
  }

  lemma FeedSemicolon(t: Display)
    requires Valid(t) && t.parser.Csi? && t.parser.current.Some?
    ensures Feed(t, ';') == t.(parser := Csi(t.parser.private, t.parser.done + [t.parser.current.value], None))
  {
  }

  lemma FeedFinal(t: Display, final: Byte)
    requires Valid(t) && t.parser.Csi? && t.parser.current.Some? && IsFinal(final)
    ensures Feed(t, final) == Execute(t.(parser := Ground), final, t.parser.private,
            t.parser.done + [t.parser.current.value])
  {
  }

  /** The parameters, each written in decimal, are collected in order. */
  lemma RunParams(t: Display, params: seq<nat>)
    requires Valid(t) && t.parser.Csi? && t.parser.done == [] && t.parser.current == None && 1 <= |params| <= 2
    ensures Run(t, Params(params)) == t.(parser := Csi(t.parser.private, params[..|params| - 1],
            Some(params[|params| - 1])))
  {
    var p := t.parser.private;
    RunDecimal(t, params[0]);
    if |params| == 2 {
      var t2 := t.(parser := Csi(p, [], Some(params[0])));
      var t3 := t.(parser := Csi(p, [params[0]], None));
      hide Feed, Run;
      RunSplit(t, Decimal(params[0]), [';'] + Decimal(params[1]));
      RunSplit(t2, [';'], Decimal(params[1]));
      RunOne(t2, ';');
      FeedSemicolon(t2);
      assert Feed(t2, ';') == t3;
      RunDecimal(t3, params[1]);
      assert params[..1] == [params[0]];
      assert Params(params) == Decimal(params[0]) + ([';'] + Decimal(params[1]));
    } else {
      assert Params(params) == Decimal(params[0]);
      assert params[..0] == [];
    }
  }

  /** A complete control sequence acts once, whatever the parser was doing. */
  lemma RunSequence(t: Display, private: bool, params: seq<nat>, final: Byte)
    requires Valid(t) && 1 <= |params| <= 2 && IsFinal(final)
    ensures Run(t, Sequence(private, params, final)) == Execute(t.(parser := Ground), final, private, params)
  {
    hide Feed, Run, Execute;
    var prefix: Bytes := [ESC, '['] + (if private then ['?'] else []);
    RunPrefix(t, private);
    var t1 := t.(parser := Csi(private, [], None));
    RunParams(t1, params);
    RunSplit(t, prefix, Params(params));
    RunSplit(t, prefix + Params(params), [final]);
    var t2 := Run(t1, Params(params));
    RunOne(t2, final);
    FeedFinal(t2, final);
    assert params == params[..|params| - 1] + [params[|params| - 1]];
  }
}
