/** The writer pointer of one Machine route, and the registry that hands scopes out. */
module Writer {
  import opened Common

  type Attachment = Uuid
  type Client = Uuid

  datatype Size = Size(columns: nat, rows: nat)

  /** The recorded writer; `control` is its live control client, if its workspace is up. */
  datatype Handle = Handle(attachment: Attachment, size: Size, control: Option<Client>)

  type Pointer = Option<Handle>

  predicate IsCurrent(p: Pointer, a: Attachment)
  {
    p.Some? && p.value.attachment == a
  }

  function WithControl(p: Pointer, a: Attachment, control: Option<Client>): Pointer
  {
    if IsCurrent(p, a) then Some(p.value.(control := control)) else p
  }

  function WithSize(p: Pointer, a: Attachment, size: Size): Pointer
  {
    if IsCurrent(p, a) then Some(p.value.(size := size)) else p
  }

  function ClearedIf(p: Pointer, a: Attachment): Pointer
  {
    if IsCurrent(p, a) then None else p
  }

  /** The pointer as its guard mutates it; observers watch `revision`. */
  class WriterState {
    var current: Pointer
    var revision: nat

    predicate Valid()
      reads this
    {
      revision <= U64_MAX
    }

    constructor ()
      ensures Valid() && current == None && revision == 0
    {
      current, revision := None, 0;
    }

    method Notify()
      requires Valid()
      modifies this`revision
      ensures Valid() && revision != old(revision)
    {
      revision := if revision == U64_MAX then 0 else revision + 1;
    }

    method SetCurrent(a: Attachment, size: Size, control: Option<Client>)
      requires Valid()
      modifies this
      ensures Valid() && current == Some(Handle(a, size, control)) && revision != old(revision)
    {
      current := Some(Handle(a, size, control));
      Notify();
    }

    method SetControl(a: Attachment, control: Client) returns (changed: bool)
      modifies this`current
      ensures current == WithControl(old(current), a, Some(control)) && changed == IsCurrent(old(current), a)
    {
      if current == None || current.value.attachment != a {
        return false;
      }
      current := Some(current.value.(control := Some(control)));
      changed := true;
    }

    method ClearControl(a: Attachment) returns (changed: bool)
      modifies this`current
      ensures current == WithControl(old(current), a, None) && changed == IsCurrent(old(current), a)
    {
      if current == None || current.value.attachment != a {
        return false;
      }
      current := Some(current.value.(control := None));
      changed := true;
    }

    method UpdateSize(a: Attachment, size: Size) returns (changed: bool)
      modifies this`current
      ensures current == WithSize(old(current), a, size) && changed == IsCurrent(old(current), a)
    {
      if current == None || current.value.attachment != a {
        return false;
      }
      current := Some(current.value.(size := size));
      changed := true;
    }

    /** Observers are notified exactly when the pointer changes hands. */
    method ClearIfCurrent(a: Attachment) returns (changed: bool)
      requires Valid()
      modifies this
      ensures Valid() && current == ClearedIf(old(current), a) && changed == IsCurrent(old(current), a)
      ensures changed <==> revision != old(revision)
    {
      if !IsCurrent(current, a) {
        return false;
      }
      current := None;
      Notify();
      changed := true;
    }

    method Clear()
      requires Valid()
      modifies this
      ensures Valid() && current == None && (old(current).Some? <==> revision != old(revision))
    {
      if current.Some? {
        current := None;
        Notify();
      }
    }
  }

  /** A scope handed out by the registry; `id` is its object identity. */
  datatype Scope = Scope(id: nat, route: Route)

  datatype Scopes = Scopes(table: map<MachineId, Scope>, next: nat)

  datatype Request = Request(machine: MachineId, route: Route)

  function Lookup(s: Scopes, q: Request): Scope
  {
    if q.machine in s.table && s.table[q.machine].route == q.route then s.table[q.machine]
    else Scope(s.next, q.route)
  }

  function Served(s: Scopes, q: Request): Scopes
  {
    if q.machine in s.table && s.table[q.machine].route == q.route then s
    else Scopes(s.table[q.machine := Scope(s.next, q.route)], s.next + 1)
  }

  class WriterRegistry {
    var table: map<MachineId, Scope>
    var next: nat

    function View(): Scopes
      reads this
    {
      Scopes(table, next)
    }

    constructor ()
      ensures View() == Scopes(map[], 0)
    {
      table, next := map[], 0;
    }

    method ScopeFor(machine: MachineId, route: Route) returns (scope: Scope)
      modifies this
      ensures scope == Lookup(old(View()), Request(machine, route))
      ensures View() == Served(old(View()), Request(machine, route))
    {
      if machine in table && table[machine].route == route {
        return table[machine];
      }
      scope := Scope(next, route);
      table := table[machine := scope];
      next := next + 1;
    }
  }

  /** The registry after a history of requests. */
  function After(s: Scopes, requests: seq<Request>): Scopes
    decreases |requests|
  {
    if requests == [] then s else After(Served(s, requests[0]), requests[1..])
  }

  function Given(requests: seq<Request>, i: nat): Scope
    requires i < |requests|
  {
    Lookup(After(Scopes(map[], 0), requests[..i]), requests[i])
  }

  ghost predicate ScopesOk(s: Scopes)
  {
    forall m :: m in s.table ==> s.table[m].id < s.next
  }

  lemma {:induction false} AfterOk(s: Scopes, requests: seq<Request>)
    requires ScopesOk(s)
    ensures ScopesOk(After(s, requests)) && s.next <= After(s, requests).next
    decreases |requests|
  {
    if requests != [] {
      AfterOk(Served(s, requests[0]), requests[1..]);
    }
  }

  lemma {:induction false} AfterSplit(s: Scopes, a: seq<Request>, b: seq<Request>)
    ensures After(s, a + b) == After(After(s, a), b)
    decreases |a|
  {
    if a == [] {
      assert a + b == b;
    } else {
      assert (a + b)[0] == a[0] && (a + b)[1..] == a[1..] + b;
      AfterSplit(Served(s, a[0]), a[1..], b);
    }
  }

  /** No request for the Machine names another route. */
  predicate Faithful(requests: seq<Request>, machine: MachineId, route: Route)
  {
    forall k :: 0 <= k < |requests| && requests[k].machine == machine ==> requests[k].route == route
  }

  /** A table entry survives exactly as long as no other route is asked for. */
  lemma {:induction false} EntrySurvives(s: Scopes, requests: seq<Request>, q: Request)
    requires ScopesOk(s) && q.machine in s.table && s.table[q.machine].route == q.route
    ensures var later := After(s, requests);
            q.machine in later.table
            && (later.table[q.machine] == s.table[q.machine] <==> Faithful(requests, q.machine, q.route))
            && (later.table[q.machine] == s.table[q.machine] || later.table[q.machine].id >= s.next)
    decreases |requests|
  {
    if requests != [] {
      var first := requests[0];
      var s' := Served(s, first);
      if first.machine == q.machine && first.route != q.route {
        assert !Faithful(requests, q.machine, q.route);
        AfterOk(s', requests[1..]);
        ReplacedIsNewer(s', requests[1..], q.machine, s.next);
      } else {
        EntrySurvives(s', requests[1..], q);
        assert Faithful(requests, q.machine, q.route) <==> Faithful(requests[1..], q.machine, q.route) by {
          assert forall k :: 0 <= k < |requests[1..]| ==> requests[1..][k] == requests[k + 1];
          if Faithful(requests[1..], q.machine, q.route) {
            forall k | 0 <= k < |requests| && requests[k].machine == q.machine ensures requests[k].route == q.route {
              if k > 0 { assert requests[k] == requests[1..][k - 1]; }
            }
          }
        }
      }
    }
  }

  lemma {:induction false} ReplacedIsNewer(s: Scopes, requests: seq<Request>, machine: MachineId, bound: nat)
    requires ScopesOk(s) && machine in s.table && s.table[machine].id >= bound && s.next >= bound
    ensures machine in After(s, requests).table && After(s, requests).table[machine].id >= bound
    decreases |requests|
  {
    if requests != [] {
      ReplacedIsNewer(Served(s, requests[0]), requests[1..], machine, bound);
    }
  }

  /**
    Two requests for one route share a scope exactly when no other route of that Machine was
    requested in between, so a replaced route that is never requested again has one scope.
   */
  lemma SameRouteSameScope(requests: seq<Request>, i: nat, j: nat)
    requires i < j < |requests| && requests[i] == requests[j]
    ensures Given(requests, i) == Given(requests, j)
            <==> Faithful(requests[i + 1..j], requests[i].machine, requests[i].route)
  {
    var empty := Scopes(map[], 0);
    var q := requests[i];
    var before := After(empty, requests[..i]);
    AfterOk(empty, requests[..i]);
    var served := Served(before, q);
    assert served.table[q.machine] == Lookup(before, q);
    var between := requests[i + 1..j];
    assert requests[..j] == requests[..i] + ([q] + between);
    AfterSplit(empty, requests[..i], [q] + between);
    assert ([q] + between)[1..] == between;
    assert After(empty, requests[..j]) == After(served, between);
    EntrySurvives(served, between, q);
    AfterOk(served, between);
  }
}
