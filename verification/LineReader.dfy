/** The bounded line reader of the control connection, across fragments and cancelled reads. */
module LineReader {
  import opened Common
  import opened Tmux

  /** The newline-terminated lines of `s`, and what follows the last newline. */
  function Split(s: Bytes): (seq<Bytes>, Bytes)
  {
    if s == [] then ([], [])
    else
      var (lines, rest) := Split(s[..|s| - 1]);
      var b := s[|s| - 1];
      if b == '\n' then (lines + [rest + [b]], []) else (lines, rest + [b])
  }

  predicate IsLine(line: Bytes)
  {
    line != [] && line[|line| - 1] == '\n' && '\n' !in line[..|line| - 1]
  }

  function Concat(lines: seq<Bytes>): Bytes
  {
    if lines == [] then [] else Concat(lines[..|lines| - 1]) + lines[|lines| - 1]
  }

  /** Splitting loses nothing and cuts exactly after newlines. */
  lemma {:induction false} SplitIsExact(s: Bytes)
    ensures Concat(Split(s).0) + Split(s).1 == s && '\n' !in Split(s).1
    ensures forall i :: 0 <= i < |Split(s).0| ==> IsLine(Split(s).0[i])
  {
    if s != [] {
      var front, b := s[..|s| - 1], s[|s| - 1];
      SplitIsExact(front);
      assert s == front + [b];
      var (lines, rest) := Split(front);
      if b == '\n' {
        var line := rest + [b];
        assert line[..|line| - 1] == rest;
        assert (lines + [line])[..|lines|] == lines;
      }
    }
  }

  lemma {:induction false} SplitExtends(s: Bytes, more: Bytes)
    requires '\n' !in more
    ensures Split(s + more) == (Split(s).0, Split(s).1 + more)
    ensures Split(s + more + ['\n']) == (Split(s).0 + [Split(s).1 + more + ['\n']], [])
    decreases |more|
  {
    if more == [] {
      assert s + more == s && Split(s).1 + more == Split(s).1;
    } else {
      var front, b := more[..|more| - 1], more[|more| - 1];
      SplitExtends(s, front);
      assert b in more;
      assert (s + more)[..|s + more| - 1] == s + front;
      assert Split(s).1 + front + [b] == Split(s).1 + more;
    }
    assert (s + more + ['\n'])[..|s + more|] == s + more;
  }

  lemma SplitLine(s: Bytes, line: Bytes)
    requires IsLine(line) && Split(s).1 == []
    ensures Split(s + line) == (Split(s).0 + [line], [])
  {
    var body := line[..|line| - 1];
    SplitExtends(s, body);
    hide Split;
    assert line == body + ['\n'] && [] + body + ['\n'] == line;
    assert s + body + ['\n'] == s + line;
  }

  lemma {:induction false} SplitOfLines(lines: seq<Bytes>)
    requires forall i :: 0 <= i < |lines| ==> IsLine(lines[i])
    ensures Split(Concat(lines)) == (lines, [])
    decreases |lines|
  {
    hide IsLine;
    if lines != [] {
      var front, last := lines[..|lines| - 1], lines[|lines| - 1];
      hide Split;
      SplitOfLines(front);
      SplitLine(Concat(front), last);
      assert front + [last] == lines;
    }
  }

  /** There is no other way to cut a stream into lines. */
  lemma SplitIsUnique(lines: seq<Bytes>, rest: Bytes)
    requires (forall i :: 0 <= i < |lines| ==> IsLine(lines[i])) && '\n' !in rest
    ensures Split(Concat(lines) + rest) == (lines, rest)
  {
    SplitOfLines(lines);
    SplitExtends(Concat(lines), rest);
    hide Split, Concat;
    assert [] + rest == rest;
  }

  datatype Outcome = Line(line: Bytes) | Unavailable | TooLong | Cancelled

  /** What a wait for more bytes brings: a fragment, a cancellation of the wait, or a broken connection. */
  datatype Arrival = Fragment(bytes: Bytes) | Interrupted | Broken

  /** The end of a script is the end of the stream; a fragment is never empty. */
  predicate Script(arrivals: seq<Arrival>)
  {
    forall i :: 0 <= i < |arrivals| && arrivals[i].Fragment? ==> arrivals[i].bytes != []
  }

  /** All bytes that arrive, whatever interrupts them. */
  function Data(arrivals: seq<Arrival>): Bytes
  {
    if arrivals == [] then []
    else
      var last := arrivals[|arrivals| - 1];
      Data(arrivals[..|arrivals| - 1]) + if last.Fragment? then last.bytes else []
  }

  /** The bytes that arrive before anything goes wrong. */
  function Ahead(arrivals: seq<Arrival>): Bytes
  {
    if arrivals == [] || !arrivals[0].Fragment? then [] else arrivals[0].bytes + Ahead(arrivals[1..])
  }

  /** What goes wrong first. */
  function Stop(arrivals: seq<Arrival>): (o: Outcome)
    ensures o == Unavailable || o == Cancelled
  {
    if arrivals == [] || arrivals[0].Broken? then Unavailable
    else if arrivals[0].Interrupted? then Cancelled
    else Stop(arrivals[1..])
  }

  /** The bytes up to and including the first newline, or all of them. */
  function LineLength(rest: Bytes): nat
  {
    var e := IndexOf(rest, '\n');
    if e.Some? then e.value + 1 else |rest|
  }

  /** The next outcome, from the pending bytes and the ones to come. */
  function Next(pending: Bytes, rest: Bytes, stop: Outcome, max: nat): Outcome
  {
    if |pending| + LineLength(rest) > max then TooLong
    else if '\n' in rest then Line(pending + rest[..LineLength(rest)])
    else stop
  }

  /** How much of a fragment belongs to the current line. */
  function Piece(buffer: Bytes): (take: nat)
    requires buffer != []
    ensures 1 <= take <= |buffer| && '\n' !in buffer[..take - 1]
    ensures buffer[take - 1] != '\n' ==> take == |buffer|
  {
    var newline := IndexOf(buffer, '\n');
    if newline.Some? then newline.value + 1
    else
      assert forall i :: 0 <= i < |buffer| ==> buffer[i] in buffer;
      |buffer|
  }

  /** A piece without a newline only moves bytes from the rest to the pending ones. */
  lemma NextMoves(pending: Bytes, piece: Bytes, rest: Bytes, stop: Outcome, max: nat)
    requires '\n' !in piece
    ensures Next(pending, piece + rest, stop, max) == Next(pending + piece, rest, stop, max)
  {
    IndexAfter(piece, rest);
    var all := piece + rest;
    assert '\n' in all <==> '\n' in rest by {
      if '\n' in rest {
        var i :| 0 <= i < |rest| && rest[i] == '\n';
        assert all[|piece| + i] == '\n';
      }
    }
    if '\n' in rest {
      var n := LineLength(rest);
      assert all[..|piece| + n] == piece + rest[..n];
      assert pending + (piece + rest[..n]) == pending + piece + rest[..n];
    }
  }

  lemma {:induction false} IndexAfter(piece: Bytes, rest: Bytes)
    requires '\n' !in piece
    ensures LineLength(piece + rest) == |piece| + LineLength(rest)
    decreases |piece|
  {
    if piece == [] {
      assert piece + rest == rest;
    } else {
      IndexAfter(piece[1..], rest);
      assert (piece + rest)[0] == piece[0] && (piece + rest)[1..] == piece[1..] + rest;
      assert piece[0] in piece;
    }
  }

  /** A piece ending in the newline decides the outcome alone. */
  lemma NextLine(pending: Bytes, piece: Bytes, rest: Bytes, stop: Outcome, max: nat)
    requires piece != [] && piece[|piece| - 1] == '\n' && '\n' !in piece[..|piece| - 1]
    ensures var outcome := Next(pending, piece + rest, stop, max);
            outcome == if |pending| + |piece| > max then TooLong else Line(pending + piece)
  {
    var body := piece[..|piece| - 1];
    assert piece + rest == body + (['\n'] + rest);
    IndexAfter(body, ['\n'] + rest);
    assert LineLength(['\n'] + rest) == 1;
    assert (piece + rest)[..|piece|] == piece && (piece + rest)[|piece| - 1] == '\n';
  }

  /** A piece without a newline that is already too long decides it too. */
  lemma NextTooLong(pending: Bytes, piece: Bytes, rest: Bytes, stop: Outcome, max: nat)
    requires '\n' !in piece && |pending| + |piece| > max
    ensures Next(pending, piece + rest, stop, max) == TooLong
  {
    IndexAfter(piece, rest);
  }

  /** What the next piece of a fragment decides. */
  lemma PieceDecides(pending: Bytes, buffer: Bytes, ahead: Bytes, stop: Outcome, max: nat)
    requires buffer != []
    ensures var take := Piece(buffer);
            var outcome := Next(pending, buffer + ahead, stop, max);
            if |pending| + take > max then outcome == TooLong
            else if buffer[take - 1] == '\n' then outcome == Line(pending + buffer[..take])
            else take == |buffer| && outcome == Next(pending + buffer, ahead, stop, max)
  {
    var take := Piece(buffer);
    var piece := buffer[..take];
    assert buffer + ahead == piece + (buffer[take..] + ahead);
    hide Next, Piece;
    if buffer[take - 1] == '\n' {
      assert piece[..take - 1] == buffer[..take - 1];
      NextLine(pending, piece, buffer[take..] + ahead, stop, max);
    } else {
      assert piece == buffer && buffer == buffer[..take - 1] + [buffer[take - 1]];
      if |pending| + take > max {
        NextTooLong(pending, buffer, ahead, stop, max);
      } else {
        NextMoves(pending, buffer, ahead, stop, max);
      }
    }
  }

  lemma NothingLeft(pending: Bytes, stop: Outcome, max: nat)
    requires |pending| <= max
    ensures Next(pending, [], stop, max) == stop
  {
  }

  /** Taking a piece up to the next newline, or one without any, extends the split accordingly. */
  lemma SplitPiece(taken: Bytes, piece: Bytes)
    requires piece != [] && '\n' !in piece[..|piece| - 1]
    ensures var (lines, rest) := Split(taken);
            Split(taken + piece)
            == if piece[|piece| - 1] == '\n' then (lines + [rest + piece], []) else (lines, rest + piece)
  {
    var body, last, rest := piece[..|piece| - 1], piece[|piece| - 1], Split(taken).1;
    assert piece == body + [last];
    if last == '\n' {
      SplitExtends(taken, body);
      assert taken + piece == taken + body + ['\n'] && rest + piece == rest + body + ['\n'];
    } else {
      SplitExtends(taken, piece);
    }
  }

  class Reader {
    const script: seq<Arrival>
    var next: nat
    var buffer: Bytes
    var pending: Bytes
    ghost var taken: Bytes
    ghost var returned: seq<Bytes>

    /** Returned lines and pending bytes are exactly what has been taken of the bytes that arrived. */
    ghost predicate Valid(max: nat)
      reads this
    {
      Script(script) && next <= |script| && taken + buffer == Data(script[..next])
      && Split(taken) == (returned, pending) && |pending| <= max
      && forall i :: 0 <= i < |returned| ==> |returned[i]| <= max
    }

    /** The bytes not taken yet that come before anything goes wrong. */
    function Rest(): Bytes
      requires next <= |script|
      reads this
    {
      buffer + Ahead(script[next..])
    }

    constructor (arrivals: seq<Arrival>)
      requires Script(arrivals)
      ensures script == arrivals && next == 0 && buffer == [] && pending == [] && returned == [] && taken == []
      ensures forall max: nat :: Valid(max)
    {
      script := arrivals;
      next, buffer, pending, taken, returned := 0, [], [], [], [];
      new;
      assert script[..0] == [];
    }

    /** The unread part of the last fragment, or what the next wait brings. */
    method FillBuffer(max: nat) returns (stop: Option<Outcome>)
      requires Valid(max)
      modifies this`next, this`buffer
      ensures Valid(max) && next >= old(next)
      ensures stop.None? ==> buffer != [] && Rest() == old(Rest()) && Stop(script[next..]) == Stop(script[old(next)..])
      ensures stop.None? && old(buffer) == [] ==> next > old(next)
      ensures stop.Some? ==> old(Rest()) == [] && buffer == [] && stop.value == Stop(script[old(next)..])
    {
      hide Split;
      if buffer != [] {
        return None;
      }
      if next == |script| {
        assert script[next..] == [];
        return Some(Unavailable);
      }
      var arrival := script[next];
      assert script[next..][0] == arrival && script[next..][1..] == script[next + 1..];
      assert script[..next + 1][..next] == script[..next];
      next := next + 1;
      match arrival
      case Fragment(bytes) =>
        buffer := bytes;
        return None;
      case Interrupted => return Some(Cancelled);
      case Broken => return Some(Unavailable);
    }

    /**
      The outcome is decided by the pending bytes and those to come before anything goes wrong: the
      next line whenever it ends among them within the limit, a refusal exactly when it is too long,
      and otherwise what went wrong. Nothing taken is lost.
     */
    method ReadLine(max: nat) returns (r: Outcome)
      requires Valid(max)
      modifies this
      ensures Valid(max) && old(next) <= next
      ensures r == Next(old(pending), old(Rest()), Stop(script[old(next)..]), max)
      ensures returned == if r.Line? then old(returned) + [r.line] else old(returned)
      ensures r.Line? ==> IsLine(r.line) && pending == [] && old(pending) <= r.line
      ensures r.Line? ==> taken == old(taken) + r.line[|old(pending)|..]
      ensures !r.Line? ==> old(pending) <= pending && taken == old(taken) + pending[|old(pending)|..]
    {
      hide Split, Next, IsLine, Piece, Ahead, Stop, Data, Script;
      ghost var was := old(taken);
      assert pending[|old(pending)|..] == [] && taken + [] == taken;
      while true
        invariant Valid(max) && old(next) <= next && returned == old(returned)
        invariant old(pending) <= pending && taken == old(taken) + pending[|old(pending)|..]
        invariant Next(pending, Rest(), Stop(script[next..]), max)
                  == Next(old(pending), old(Rest()), Stop(script[old(next)..]), max)
        decreases |script| - next, |buffer|
      {
        var stop := FillBuffer(max);
        if stop.Some? {
          NothingLeft(pending, stop.value, max);
          return stop.value;
        }
        var take := Piece(buffer);
        ghost var ahead := Ahead(script[next..]);
        assert Rest() == buffer + ahead;
        PieceDecides(pending, buffer, ahead, Stop(script[next..]), max);
        if |pending| + take > max {
          return TooLong;
        }
        ghost var before, piece, fragment := pending, buffer[..take], buffer;
        var line := Absorb(take, max);
        assert (before + piece)[|old(pending)|..] == before[|old(pending)|..] + piece;
        if line.Some? {
          return Line(line.value);
        }
        assert piece == fragment && buffer == [] && Rest() == [] + ahead == ahead;
      }
    }

    /** Takes bytes up to a newline, or a whole fragment without one. */
    method Absorb(take: nat, max: nat) returns (line: Option<Bytes>)
      requires Valid(max) && buffer != [] && take == Piece(buffer) && |pending| + take <= max
      modifies this`buffer, this`pending, this`taken, this`returned
      ensures Valid(max) && buffer == old(buffer)[take..] && taken == old(taken) + old(buffer)[..take]
      ensures var more := old(pending) + old(buffer)[..take];
              if old(buffer)[take - 1] == '\n'
              then line == Some(more) && IsLine(more) && pending == [] && returned == old(returned) + [more]
              else line == None && pending == more && returned == old(returned)
    {
      hide Split, IsLine, Piece, Data, Script;
      var piece := buffer[..take];
      assert piece[..take - 1] == buffer[..take - 1] && buffer == piece + buffer[take..];
      SplitPiece(taken, piece);
      assert taken + piece + buffer[take..] == taken + buffer;
      pending := pending + piece;
      taken := taken + piece;
      buffer := buffer[take..];
      if piece[take - 1] == '\n' {
        SplitIsExact(taken);
        assert Split(taken).0[|returned|] == pending;
        line := Some(pending);
        returned := returned + [pending];
        pending := [];
      } else {
        line := None;
      }
    }
  }
}
