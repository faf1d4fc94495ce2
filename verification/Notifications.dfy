/** The notification formats read backwards: what a target writes is what its records deliver. */
module Notifications {
  import opened Common
  import opened Tmux
  import Terminal
  import opened Delivery
  import PaneRows

  // ---- Output records ----

  function OutputLine(pane: Bytes, data: Bytes): Bytes
  {
    "%output " + pane + " " + Escape(data) + "\n"
  }

  /** The form sent to a client that pauses; `age` is the delay in milliseconds. */
  function AgedLine(pane: Bytes, age: nat, data: Bytes): Bytes
  {
    "%extended-output " + pane + " " + Terminal.Decimal(age) + " : " + Escape(data) + "\n"
  }

  lemma NewlineStrips(line: Bytes)
    ensures StripNewline(line + "\n") == line
  {
    assert (line + "\n")[..|line|] == line;
  }

  lemma IndexOfSpace(a: Bytes, b: Bytes)
    requires ' ' !in a
    ensures IndexOf(a + " " + b, ' ') == Some(|a|)
  {
    var s := a + " " + b;
    assert s[|a|] == ' ';
    assert ' ' in s;
    assert forall k :: 0 <= k < |a| ==> s[k] == a[k] && a[k] in a;
    forall j | |a| < j <= |s| ensures ' ' in s[..j] {
      assert s[..j][|a|] == ' ';
    }
  }

  lemma PaneHasNoSpace(pane: Bytes)
    requires IsPaneId(pane)
    ensures ' ' !in pane
  {
    forall i | 0 <= i < |pane| ensures pane[i] != ' ' {
      if i > 0 { assert IsDigit(pane[1..][i - 1]); }
    }
  }

  /** The separator after digits is found right behind them. */
  lemma {:induction false} SeparatorAfterDigits(digits: Bytes, rest: Bytes)
    requires AllDigits(digits)
    ensures Separator(digits + " : " + rest) == Some(|digits|)
    decreases |digits|
  {
    var s := digits + " : " + rest;
    if digits == [] {
      assert s[0] == ' ' && s[1] == ':' && s[2] == ' ';
    } else {
      SeparatorAfterDigits(digits[1..], rest);
      assert s[0] == digits[0] && IsDigit(s[0]);
      assert s[1..] == digits[1..] + " : " + rest;
    }
  }

  lemma PlainParts(pane: Bytes, encoded: Bytes)
    requires IsPaneId(pane)
    ensures var line: Bytes := "%output " + pane + " " + encoded;
            OUTPUT <= line && OutputParts(line) == Some((pane, encoded))
  {
    var line: Bytes := OUTPUT + (pane + " " + encoded);
    assert line == "%output " + pane + " " + encoded;
    var rest := line[|OUTPUT|..];
    assert rest == pane + " " + encoded;
    PaneHasNoSpace(pane);
    IndexOfSpace(pane, encoded);
    assert rest[..|pane|] == pane && rest[|pane| + 1..] == encoded;
  }

  lemma AgedParts(pane: Bytes, digits: Bytes, encoded: Bytes)
    requires IsPaneId(pane) && digits != [] && AllDigits(digits)
    ensures var line: Bytes := "%extended-output " + pane + " " + digits + " : " + encoded;
            EXTENDED <= line && !(OUTPUT <= line) && OutputParts(line) == Some((pane, encoded))
  {
    var tail: Bytes := digits + " : " + encoded;
    var line: Bytes := EXTENDED + (pane + " " + tail);
    assert line == "%extended-output " + pane + " " + digits + " : " + encoded;
    assert line[1] == EXTENDED[1] == 'e' && OUTPUT[1] == 'o';
    var rest := line[|EXTENDED|..];
    assert rest == pane + " " + tail;
    PaneHasNoSpace(pane);
    IndexOfSpace(pane, tail);
    assert rest[..|pane|] == pane && rest[|pane| + 1..] == tail;
    SeparatorAfterDigits(digits, encoded);
    assert tail[..|digits|] == digits && tail[|digits| + 3..] == encoded;
  }

  /** Output is parsed as exactly the pane and the bytes it was written for. */
  lemma OutputParses(pane: Bytes, data: Bytes)
    requires IsPaneId(pane)
    ensures Parse(OutputLine(pane, data)) == Output(pane, data)
  {
    NewlineStrips("%output " + pane + " " + Escape(data));
    PlainParts(pane, Escape(data));
    UnescapeInvertsEscape(data);
    hide Escape, Unescape, OutputParts, IsPaneId, IsRefresh, IsIgnorable;
  }

  /** And so is output with an age, whatever the age. */
  lemma AgedOutputParses(pane: Bytes, age: nat, data: Bytes)
    requires IsPaneId(pane)
    ensures Parse(AgedLine(pane, age, data)) == Output(pane, data)
  {
    NewlineStrips("%extended-output " + pane + " " + Terminal.Decimal(age) + " : " + Escape(data));
    AgedParts(pane, Terminal.Decimal(age), Escape(data));
    UnescapeInvertsEscape(data);
    hide Escape, Unescape, OutputParts, IsPaneId, IsRefresh, IsIgnorable, Terminal.Decimal;
  }

  // ---- Other notifications ----

  const REFRESH_FORMS: seq<Bytes> := [
    "%layout-change ", "%pane-mode-changed ", "%session-changed ", "%session-renamed ", "%session-window-changed ",
    "%subscription-changed ", "%window-add ", "%window-close ", "%window-pane-changed ", "%window-renamed "]

  const QUIET_FORMS: seq<Bytes> := [
    "%client-active ", "%client-detached ", "%client-session-changed ", "%client-window-changed ", "%message ",
    "%paste-buffer-changed ", "%paste-buffer-deleted ", "%unlinked-window-add ", "%unlinked-window-close ",
    "%unlinked-window-renamed "]

  lemma DiffersAt(p: Bytes, line: Bytes, k: nat)
    requires k < |p| && k < |line| && p[k] != line[k]
    ensures !(p <= line) && p != line
  {
  }

  /** Lines that start with none of the forms parsed on their own. */
  predicate Ordinary(line: Bytes)
  {
    |line| >= 4 && line[1] != 'o' && line[1] != 'e' && (line[1] == 'c' ==> line[2] != 'o')
    && (line[1] == 'p' ==> line[3] != 'u')
  }

  lemma OrdinaryParses(line: Bytes)
    requires Ordinary(line)
    ensures Parse(line + "\n") == if IsRefresh(line) then Refresh else if IsIgnorable(line) then Quiet else Unknown
  {
    NewlineStrips(line);
    DiffersAt(OUTPUT, line, 1);
    DiffersAt(EXTENDED, line, 1);
    DiffersAt("%exit", line, 1);
    DiffersAt("%exit ", line, 1);
    DiffersAt(PAUSE, line, if line[1] == 'p' then 3 else 1);
    DiffersAt(CONTINUE, line, if line[1] == 'c' then 2 else 1);
    hide IsRefresh, IsIgnorable;
  }

  /** Changes of sessions, windows, panes, layouts and subscriptions ask for a refresh, whatever follows the name. */
  lemma RefreshFormsParse(i: nat, rest: Bytes)
    requires i < |REFRESH_FORMS|
    ensures Parse(REFRESH_FORMS[i] + rest + "\n") == Refresh
  {
    var form := REFRESH_FORMS[i];
    var line := form + rest;
    assert form <= line;
    assert form[1] == line[1] && form[2] == line[2] && form[3] == line[3];
    assert Ordinary(line);
    assert IsRefresh(line);
    OrdinaryParses(line);
  }

  lemma SessionsChangedParses()
    ensures Parse("%sessions-changed\n") == Refresh
  {
    var line: Bytes := "%sessions-changed";
    assert Ordinary(line) && IsRefresh(line);
    OrdinaryParses(line);
    assert line + "\n" == "%sessions-changed\n";
  }

  lemma NotRefreshing(line: Bytes)
    requires |line| >= 4 && (line[1] == 'c' || line[1] == 'm' || line[1] == 'u' || (line[1] == 'p' && line[3] == 's'))
    ensures !IsRefresh(line)
  {
    forall i | 0 <= i < |REFRESH_FORMS| ensures !(REFRESH_FORMS[i] <= line) {
      DiffersAt(REFRESH_FORMS[i], line, if line[1] == 'p' && REFRESH_FORMS[i][1] == 'p' then 3 else 1);
    }
    DiffersAt("%sessions-changed", line, 1);
    IsRefreshLists(line);
  }

  lemma IsRefreshLists(line: Bytes)
    ensures IsRefresh(line) <==>
            line == "%sessions-changed" || exists i :: 0 <= i < |REFRESH_FORMS| && REFRESH_FORMS[i] <= line
  {
    assert REFRESH_FORMS[0] == "%layout-change " && REFRESH_FORMS[1] == "%pane-mode-changed ";
    assert REFRESH_FORMS[2] == "%session-changed " && REFRESH_FORMS[3] == "%session-renamed ";
    assert REFRESH_FORMS[4] == "%session-window-changed " && REFRESH_FORMS[5] == "%subscription-changed ";
    assert REFRESH_FORMS[6] == "%window-add " && REFRESH_FORMS[7] == "%window-close ";
    assert REFRESH_FORMS[8] == "%window-pane-changed " && REFRESH_FORMS[9] == "%window-renamed ";
  }

  /** Other clients, messages, paste buffers and unlinked windows are of no concern. */
  lemma QuietFormsParse(i: nat, rest: Bytes)
    requires i < |QUIET_FORMS|
    ensures Parse(QUIET_FORMS[i] + rest + "\n") == Quiet
  {
    var form := QUIET_FORMS[i];
    var line := form + rest;
    assert form <= line;
    assert form[1] == line[1] && form[2] == line[2] && form[3] == line[3];
    assert Ordinary(line);
    assert IsIgnorable(line);
    NotRefreshing(line);
    OrdinaryParses(line);
  }

  lemma ExitParses(reason: Bytes)
    ensures Parse("%exit\n") == Exit && Parse("%exit " + reason + "\n") == Exit
  {
    var bare: Bytes, line: Bytes := "%exit", "%exit " + reason;
    NewlineStrips(bare);
    NewlineStrips(line);
    assert bare + "\n" == "%exit\n";
    assert line[1] == 'e' && line[3] == 'i' && EXTENDED[3] == 't' && bare[3] == 'i';
    DiffersAt(OUTPUT, line, 1);
    DiffersAt(EXTENDED, line, 3);
    DiffersAt(OUTPUT, bare, 1);
    DiffersAt(EXTENDED, bare, 3);
    assert "%exit " <= line;
    hide IsRefresh, IsIgnorable;
  }

  /** A pause asks for a refresh and a continuation for nothing, for pane identities only. */
  lemma FlowParses(word: Bytes)
    ensures Parse("%pause " + word + "\n") == if IsPaneId(word) then Refresh else Unknown
    ensures Parse("%continue " + word + "\n") == if IsPaneId(word) then Quiet else Unknown
  {
    var pause: Bytes, resume: Bytes := "%pause " + word, "%continue " + word;
    NewlineStrips(pause);
    NewlineStrips(resume);
    assert PAUSE <= pause && pause[|PAUSE|..] == word;
    assert CONTINUE <= resume && resume[|CONTINUE|..] == word;
    assert pause[1] == 'p' && resume[1] == 'c';
    FlowIsNoOther(pause);
    FlowIsNoOther(resume);
    DiffersAt(PAUSE, resume, 1);
    hide IsRefresh, IsIgnorable, IsPaneId;
  }

  lemma FlowIsNoOther(line: Bytes)
    requires |line| >= 2 && (line[1] == 'p' || line[1] == 'c')
    ensures !(OUTPUT <= line) && !(EXTENDED <= line) && !IsExit(line)
  {
    DiffersAt(OUTPUT, line, 1);
    DiffersAt(EXTENDED, line, 1);
    DiffersAt("%exit", line, 1);
    DiffersAt("%exit ", line, 1);
  }

  // ---- Nothing else is accepted ----

  predicate PlainForm(line: Bytes, pane: Bytes, encoded: Bytes)
  {
    line == "%output " + pane + " " + encoded
  }

  predicate AgedForm(line: Bytes, pane: Bytes, digits: Bytes, encoded: Bytes)
  {
    digits != [] && AllDigits(digits) && line == "%extended-output " + pane + " " + digits + " : " + encoded
  }

  /** The line announces still-escaped data for a pane. */
  ghost predicate Announces(line: Bytes, pane: Bytes, encoded: Bytes)
  {
    PlainForm(line, pane, encoded) || exists digits :: AgedForm(line, pane, digits, encoded)
  }

  lemma {:induction false} SeparatorIsThere(s: Bytes)
    ensures var i := Separator(s);
            i.Some? ==> s == s[..i.value] + " : " + s[i.value + 3..]
  {
    if |s| >= 3 && !(s[0] == ' ' && s[1] == ':' && s[2] == ' ') {
      SeparatorIsThere(s[1..]);
    }
  }

  lemma SpaceIsThere(s: Bytes)
    ensures var i := IndexOf(s, ' ');
            i.Some? ==> s == s[..i.value] + " " + s[i.value + 1..]
  {
  }

  lemma PartsAnnounce(line: Bytes)
    requires (OUTPUT <= line || EXTENDED <= line) && OutputParts(line).Some?
    ensures Announces(line, OutputParts(line).value.0, OutputParts(line).value.1)
  {
    var plain := OUTPUT <= line;
    var rest := if plain then line[|OUTPUT|..] else line[|EXTENDED|..];
    var space := IndexOf(rest, ' ').value;
    var pane, tail := rest[..space], rest[space + 1..];
    SpaceIsThere(rest);
    hide IndexOf;
    if plain {
      assert OutputParts(line) == Some((pane, tail));
      PlainJoins(line, pane, tail);
    } else {
      var colon := Separator(tail).value;
      SeparatorIsThere(tail);
      hide Separator;
      assert OutputParts(line) == Some((pane, tail[colon + 3..]));
      AgedJoins(line, pane, tail[..colon], tail[colon + 3..]);
    }
  }

  lemma PlainJoins(line: Bytes, pane: Bytes, tail: Bytes)
    requires OUTPUT <= line && line[|OUTPUT|..] == pane + " " + tail
    ensures PlainForm(line, pane, tail)
  {
    assert line == OUTPUT + line[|OUTPUT|..];
    assert OUTPUT + (pane + " " + tail) == "%output " + pane + " " + tail;
  }

  lemma AgedJoins(line: Bytes, pane: Bytes, digits: Bytes, encoded: Bytes)
    requires EXTENDED <= line && line[|EXTENDED|..] == pane + " " + (digits + " : " + encoded)
    requires digits != [] && AllDigits(digits)
    ensures AgedForm(line, pane, digits, encoded)
  {
    assert line == EXTENDED + line[|EXTENDED|..];
    assert EXTENDED + (pane + " " + (digits + " : " + encoded))
           == "%extended-output " + pane + " " + digits + " : " + encoded;
  }

  lemma AnnouncedParts(line: Bytes, pane: Bytes, encoded: Bytes)
    requires IsPaneId(pane) && Announces(line, pane, encoded)
    ensures (OUTPUT <= line || EXTENDED <= line) && OutputParts(line) == Some((pane, encoded))
  {
    hide OutputParts, IsPaneId;
    if PlainForm(line, pane, encoded) {
      PlainParts(pane, encoded);
    } else {
      var digits :| AgedForm(line, pane, digits, encoded);
      AgedParts(pane, digits, encoded);
    }
  }

  /** A record is output of a pane exactly when it has one of the two forms and its escapes decode. */
  lemma OutputIsExact(record: Bytes, pane: Bytes, data: Bytes)
    ensures Parse(record) == Output(pane, data) <==>
            && IsPaneId(pane)
            && exists encoded :: Announces(StripNewline(record), pane, encoded) && Unescape(encoded) == Some(data)
  {
    var line := StripNewline(record);
    hide OutputParts, Unescape, IsPaneId, IsRefresh, IsIgnorable, IsExit, Announces, StripNewline;
    if Parse(record) == Output(pane, data) {
      PartsAnnounce(line);
    }
    if encoded :| IsPaneId(pane) && Announces(line, pane, encoded) && Unescape(encoded) == Some(data) {
      AnnouncedParts(line, pane, encoded);
    }
  }

  ghost predicate HasForm(forms: seq<Bytes>, line: Bytes)
  {
    exists i :: 0 <= i < |forms| && forms[i] <= line
  }

  lemma IsIgnorableLists(line: Bytes)
    ensures IsIgnorable(line) <==> HasForm(QUIET_FORMS, line)
  {
    assert QUIET_FORMS[0] == "%client-active " && QUIET_FORMS[1] == "%client-detached ";
    assert QUIET_FORMS[2] == "%client-session-changed " && QUIET_FORMS[3] == "%client-window-changed ";
    assert QUIET_FORMS[4] == "%message " && QUIET_FORMS[5] == "%paste-buffer-changed ";
    assert QUIET_FORMS[6] == "%paste-buffer-deleted " && QUIET_FORMS[7] == "%unlinked-window-add ";
    assert QUIET_FORMS[8] == "%unlinked-window-close " && QUIET_FORMS[9] == "%unlinked-window-renamed ";
  }

  lemma SameLine(record: Bytes)
    ensures Parse(record) == Parse(StripNewline(record) + "\n")
  {
    NewlineStrips(StripNewline(record));
    hide StripNewline;
  }

  lemma Rest(form: Bytes, line: Bytes)
    requires form <= line
    ensures form + line[|form|..] == line
  {
  }

  /** Of the other records, exactly these end the adapter, ask for a refresh or are of no concern. */
  lemma OthersAreExact(record: Bytes)
    ensures var line := StripNewline(record);
            && (Parse(record) == Exit <==> line == "%exit" || "%exit " <= line)
            && (Parse(record) == Refresh <==>
                || line == "%sessions-changed" || HasForm(REFRESH_FORMS, line)
                || (PAUSE <= line && IsPaneId(line[|PAUSE|..])))
            && (Parse(record) == Quiet <==>
                HasForm(QUIET_FORMS, line) || (CONTINUE <= line && IsPaneId(line[|CONTINUE|..])))
  {
    var line := StripNewline(record);
    SameLine(record);
    NewlineStrips(line);
    IsRefreshLists(line);
    IsIgnorableLists(line);
    FormsParse(line);
    hide IsRefresh, IsIgnorable, IsPaneId, OutputParts, Unescape, StripNewline;
  }

  lemma FormsParse(line: Bytes)
    ensures line == "%exit" || "%exit " <= line ==> Parse(line + "\n") == Exit
    ensures line == "%sessions-changed" || HasForm(REFRESH_FORMS, line) ==> Parse(line + "\n") == Refresh
    ensures HasForm(QUIET_FORMS, line) ==> Parse(line + "\n") == Quiet
    ensures PAUSE <= line && IsPaneId(line[|PAUSE|..]) ==> Parse(line + "\n") == Refresh
    ensures CONTINUE <= line && IsPaneId(line[|CONTINUE|..]) ==> Parse(line + "\n") == Quiet
  {
    hide Parse, IsPaneId;
    SessionsChangedParses();
    if "%exit " <= line {
      Rest("%exit ", line);
      ExitParses(line[6..]);
    } else if line == "%exit" {
      ExitParses([]);
      assert line + "\n" == "%exit\n";
    }
    assert line == "%sessions-changed" ==> line + "\n" == "%sessions-changed\n";
    if i :| 0 <= i < |REFRESH_FORMS| && REFRESH_FORMS[i] <= line {
      Rest(REFRESH_FORMS[i], line);
      RefreshFormsParse(i, line[|REFRESH_FORMS[i]|..]);
    }
    if i :| 0 <= i < |QUIET_FORMS| && QUIET_FORMS[i] <= line {
      Rest(QUIET_FORMS[i], line);
      QuietFormsParse(i, line[|QUIET_FORMS[i]|..]);
    }
    if PAUSE <= line {
      Rest(PAUSE, line);
      FlowParses(line[|PAUSE|..]);
    }
    if CONTINUE <= line {
      Rest(CONTINUE, line);
      FlowParses(line[|CONTINUE|..]);
    }
  }

  // ---- Streams ----

  /** What a target does on the control connection. */
  datatype Emission =
    | Wrote(pane: Bytes, data: Bytes)
    | WroteLate(pane: Bytes, age: nat, data: Bytes)
    | Answered(begin: Bytes, rows: seq<Bytes>, end: Bytes)
    | Noticed(line: Bytes)

  predicate IsEnd(line: Bytes)
  {
    END <= line || ERROR <= line
  }

  predicate Regular(e: Emission)
  {
    match e
    case Wrote(pane, _) => IsPaneId(pane)
    case WroteLate(pane, _, _) => IsPaneId(pane)
    case Answered(begin, rows, end) => BEGIN <= begin && IsEnd(end) && forall i :: 0 <= i < |rows| ==> !IsEnd(rows[i])
    case Noticed(line) => !(BEGIN <= line) && !Parse(line).Output?
  }

  function LinesOf(e: Emission): seq<Bytes>
  {
    match e
    case Wrote(pane, data) => [OutputLine(pane, data)]
    case WroteLate(pane, age, data) => [AgedLine(pane, age, data)]
    case Answered(begin, rows, end) => [begin] + rows + [end]
    case Noticed(line) => [line]
  }

  function Stream(es: seq<Emission>): seq<Bytes>
  {
    if es == [] then [] else Stream(es[..|es| - 1]) + LinesOf(es[|es| - 1])
  }

  function WrittenBy(e: Emission, pane: Bytes): Bytes
  {
    if (e.Wrote? || e.WroteLate?) && e.pane == pane then e.data else []
  }

  /** Everything written for a pane, in order. */
  function Written(es: seq<Emission>, pane: Bytes): Bytes
  {
    if es == [] then [] else Written(es[..|es| - 1], pane) + WrittenBy(es[|es| - 1], pane)
  }

  lemma OneLine(line: Bytes, pane: Bytes)
    requires !(BEGIN <= line)
    ensures !Guarded([line]) && Delivered([line], pane) == OutputFor(Parse(line), pane)
  {
    hide Parse;
    assert [line][..0] == [];
    assert !Guarded([]) && Announced([], line) == Parse(line);
    assert [] + OutputFor(Parse(line), pane) == OutputFor(Parse(line), pane);
  }

  lemma {:induction false} ResponseDelivers(begin: Bytes, rows: seq<Bytes>, pane: Bytes, k: nat)
    requires BEGIN <= begin && k <= |rows| && forall i :: 0 <= i < |rows| ==> !IsEnd(rows[i])
    ensures Guarded([begin] + rows[..k]) && Delivered([begin] + rows[..k], pane) == []
  {
    hide Parse;
    var lines := [begin] + rows[..k];
    if k == 0 {
      assert lines == [begin] && [begin][..0] == [];
      assert Announced([], begin) == Quiet;
    } else {
      ResponseDelivers(begin, rows, pane, k - 1);
      assert lines[..|lines| - 1] == [begin] + rows[..k - 1];
      assert Announced([begin] + rows[..k - 1], rows[k - 1]) == Quiet;
    }
  }

  lemma EmissionDelivers(e: Emission, pane: Bytes)
    requires Regular(e)
    ensures !Guarded(LinesOf(e)) && Delivered(LinesOf(e), pane) == WrittenBy(e, pane)
  {
    hide Parse, OutputLine, AgedLine;
    match e {
      case Wrote(p, data) =>
        OutputParses(p, data);
        OutputIsNoBegin(p, 0, data);
        OneLine(OutputLine(p, data), pane);
      case WroteLate(p, age, data) =>
        AgedOutputParses(p, age, data);
        OutputIsNoBegin(p, age, data);
        OneLine(AgedLine(p, age, data), pane);
      case Noticed(line) => OneLine(line, pane);
      case Answered(begin, rows, end) =>
        ResponseDelivers(begin, rows, pane, |rows|);
        assert rows[..|rows|] == rows;
        var lines, front := LinesOf(e), [begin] + rows;
        assert lines[..|lines| - 1] == front;
        assert Announced(front, end) == Quiet;
    }
  }

  lemma OutputIsNoBegin(pane: Bytes, age: nat, data: Bytes)
    ensures !(BEGIN <= OutputLine(pane, data)) && !(BEGIN <= AgedLine(pane, age, data))
  {
    var plain, late := OutputLine(pane, data), AgedLine(pane, age, data);
    assert plain[1] == 'o' && late[1] == 'e' && BEGIN[1] == 'b';
  }

  /** Whatever a target interleaves, each pane is delivered exactly the bytes written for it, in order. */
  lemma {:induction false} StreamDelivers(es: seq<Emission>, pane: Bytes)
    requires forall i :: 0 <= i < |es| ==> Regular(es[i])
    ensures !Guarded(Stream(es)) && Delivered(Stream(es), pane) == Written(es, pane)
    decreases |es|
  {
    hide Parse, LinesOf, Regular;
    if es != [] {
      var front, last := es[..|es| - 1], es[|es| - 1];
      StreamDelivers(front, pane);
      EmissionDelivers(last, pane);
      GuardedSplit(Stream(front), LinesOf(last));
      DeliveredSplit(Stream(front), LinesOf(last), pane);
    }
  }
}
