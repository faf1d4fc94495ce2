/** The window formats read backwards: rows of well-formed windows are accepted as exactly them. */
module WindowRows {
  import opened Common
  import opened Tmux
  import opened PaneRows
  import Terminal

  /** The last field takes the remainder, colons included. */
  lemma {:induction false} FieldsRemainder(fields: seq<Bytes>, last: Bytes)
    requires AllPlain(fields)
    ensures Fields(Colons(fields + [last]), |fields| + 1) == fields + [last]
    decreases |fields|
  {
    var all := fields + [last];
    if fields == [] {
      assert all == [last];
    } else {
      var first, rest := fields[0], fields[1..];
      assert Plain(first) && ':' !in first;
      FieldsRemainder(rest, last);
      assert all[1..] == rest + [last] && all[0] == first;
      hide Plain;
      FieldsFirst(first, Colons(rest + [last]), |fields| + 1);
      assert [first] + (rest + [last]) == fields + [last];
    }
  }

  lemma {:induction false} Utf8Append(a: Bytes, b: Bytes)
    requires (forall i :: 0 <= i < |a| ==> a[i] as int < 0x80) && IsUtf8(b)
    ensures IsUtf8(a + b)
    decreases |a|
  {
    if a == [] {
      assert a + b == b;
    } else {
      Utf8Append(a[1..], b);
      assert (a + b)[0] == a[0] && (a + b)[1..] == a[1..] + b;
    }
  }

  lemma {:induction false} ColonsAppend(fields: seq<Bytes>, last: Bytes)
    requires fields != [] && AllPlain(fields)
    ensures exists a: Bytes :: Colons(fields + [last]) == a + last && forall i :: 0 <= i < |a| ==> a[i] as int < 0x80
    decreases |fields|
  {
    var all, first := fields + [last], fields[0];
    assert Plain(first);
    if |fields| == 1 {
      assert all[1..] == [last];
      assert Colons(all) == first + [':'] + last;
      assert forall i :: 0 <= i < |first + [':']| ==> (first + [':'])[i] as int < 0x80;
    } else {
      ColonsAppend(fields[1..], last);
      assert all[1..] == fields[1..] + [last];
      var a: Bytes :| Colons(fields[1..] + [last]) == a + last && forall i :: 0 <= i < |a| ==> a[i] as int < 0x80;
      var b := first + [':'] + a;
      assert Colons(all) == b + last;
      assert forall i :: 0 <= i < |b| ==> b[i] as int < 0x80;
    }
  }

  lemma ColonsUtf8(fields: seq<Bytes>, last: Bytes)
    requires fields != [] && AllPlain(fields) && IsUtf8(last)
    ensures IsUtf8(Colons(fields + [last]))
  {
    ColonsAppend(fields, last);
    var a: Bytes :| Colons(fields + [last]) == a + last && forall i :: 0 <= i < |a| ==> a[i] as int < 0x80;
    Utf8Append(a, last);
  }

  // ---- The active window ----

  function WindowFields(w: Window, session: Bytes, created: nat): seq<Bytes>
  {
    [session, Terminal.Decimal(created), w.id, Terminal.Decimal(w.width), Terminal.Decimal(w.height)]
  }

  function WindowRow(w: Window, session: Bytes, created: nat): Bytes
  {
    Colons(WindowFields(w, session, created) + [w.layout])
  }

  lemma SessionIsPlain(session: Bytes)
    requires IsNumericId(session, '$')
    ensures Plain(session)
  {
    forall i | 0 <= i < |session| ensures session[i] as int < 0x80 && session[i] != ':' {
      if i > 0 { assert IsDigit(session[1..][i - 1]); }
    }
  }

  lemma WindowFieldsPlain(w: Window, session: Bytes, created: nat)
    requires IsNumericId(w.id, '@') && IsNumericId(session, '$')
    ensures AllPlain(WindowFields(w, session, created))
  {
    hide Plain, Terminal.Decimal, IsNumericId;
    SessionIsPlain(session);
    IdIsPlain(w.id, '@');
    DecimalPlain(created);
    DecimalPlain(w.width);
    DecimalPlain(w.height);
  }

  lemma LayoutIsUtf8(layout: Bytes)
    requires IsGraphic(layout)
    ensures IsUtf8(layout)
  {
    AsciiIsUtf8(layout);
  }

  lemma WindowRowSplits(w: Window, session: Bytes, created: nat)
    requires WindowOk(w) && IsNumericId(session, '$')
    ensures var row, f := WindowRow(w, session, created), WindowFields(w, session, created) + [w.layout];
            IsUtf8(row) && Fields(row, 6) == f
  {
    var f := WindowFields(w, session, created);
    WindowFieldsPlain(w, session, created);
    LayoutIsUtf8(w.layout);
    ColonsUtf8(f, w.layout);
    FieldsRemainder(f, w.layout);
  }

  lemma WindowNumbers(w: Window, created: nat)
    requires WindowOk(w) && created <= I64_MAX
    ensures ParseUnsigned(Terminal.Decimal(created), I64_MAX) == Some(created)
    ensures ParseDimension(Terminal.Decimal(w.width)) == Some(w.width)
    ensures ParseDimension(Terminal.Decimal(w.height)) == Some(w.height)
  {
    hide Terminal.Decimal, Plain, ParseUnsigned, TextOk, IsGraphic, IsNumericId;
    DecimalParses(created, I64_MAX);
    DecimalParses(w.width, U32_MAX);
    DecimalParses(w.height, U32_MAX);
  }

  /** What the parser makes of the row of a well-formed window, of this session or of another. */
  lemma WindowRowParses(w: Window, session: Bytes, created: nat, asked: Bytes, at: int)
    requires WindowOk(w) && w.name == [] && IsNumericId(session, '$') && 1 <= created <= I64_MAX
    ensures ParseWindow([WindowRow(w, session, created)], asked, at)
            == if session == asked && created == at then Ok(w) else Err(Changed)
  {
    hide Terminal.Decimal, Fields, Colons, IsUtf8, ParseUnsigned, ParseDimension, TextOk, IsGraphic, WindowRow;
    hide IsNumericId;
    WindowRowSplits(w, session, created);
    WindowNumbers(w, created);
    var row, all := WindowRow(w, session, created), WindowFields(w, session, created) + [w.layout];
    assert SingleLine([row]) == Ok(row);
    assert |all| == 6 && all[0] == session && all[1] == Terminal.Decimal(created) && all[2] == w.id;
    assert all[3] == Terminal.Decimal(w.width) && all[4] == Terminal.Decimal(w.height) && all[5] == w.layout;
  }

  // ---- The window list ----

  function SummaryFields(w: WindowSummary): seq<Bytes>
  {
    [w.id, Flag(w.active)]
  }

  function SummaryRow(w: WindowSummary): Bytes
  {
    Colons(SummaryFields(w) + [w.name])
  }

  lemma SummaryRowParses(w: WindowSummary)
    requires SummaryOk(w) && IsUtf8(w.name)
    ensures ParseWindowRow(SummaryRow(w)) == Some(w)
  {
    var f := SummaryFields(w);
    IdIsPlain(w.id, '@');
    FlagParses(w.active);
    assert AllPlain(f) by { hide Plain; }
    ColonsUtf8(f, w.name);
    FieldsRemainder(f, w.name);
    hide Plain, AllPlain, Fields, Colons, IsUtf8, ParseFlag, Flag, HasControl;
    var all := f + [w.name];
    assert all[0] == w.id && all[1] == Flag(w.active) && all[2] == w.name;
  }

  function SummaryRows(windows: seq<WindowSummary>): (rows: seq<Bytes>)
    ensures |rows| == |windows| && forall i :: 0 <= i < |rows| ==> rows[i] == SummaryRow(windows[i])
  {
    seq(|windows|, i requires 0 <= i < |windows| => SummaryRow(windows[i]))
  }

  lemma {:induction false} SummaryRowsParse(windows: seq<WindowSummary>)
    requires forall i :: 0 <= i < |windows| ==> SummaryOk(windows[i]) && IsUtf8(windows[i].name)
    requires forall i, j :: 0 <= i < j < |windows| ==> windows[i].id != windows[j].id
    ensures ParseWindowRows(SummaryRows(windows)) == Some(windows)
    decreases |windows|
  {
    hide SummaryRow, ParseWindowRow, SummaryOk, IsUtf8;
    if windows != [] {
      var front, last := windows[..|windows| - 1], windows[|windows| - 1];
      SummaryRowsParse(front);
      SummaryRowParses(last);
      assert SummaryRows(windows)[..|windows| - 1] == SummaryRows(front);
      assert front + [last] == windows;
    }
  }

  /** Every well-formed list of windows is accepted from its rows as exactly that list. */
  lemma WindowListParses(windows: seq<WindowSummary>)
    requires WindowsOk(windows) && forall i :: 0 <= i < |windows| ==> IsUtf8(windows[i].name)
    ensures ParseWindows(SummaryRows(windows)) == Ok(windows)
  {
    SummaryRowsParse(windows);
  }
}
