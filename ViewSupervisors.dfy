/**
  The decisions of the main web page of the cluster: which conciliation strategies it
  offers, which action a request triggers, the rows of the table of conflicts, and the
  stop requests that the stop and keep actions issue, with the waiters that report when
  those requests took effect.
 */
module ViewSupervisors {
  import opened Wrappers

  /** The states of the cluster state machine. */
  datatype SupervisorsState = Initialization | Deployment | Operation | Conciliation | Restarting | ShuttingDown | Shutdown

  /** The conciliation strategies. */
  datatype ConciliationStrategy = Senior | Recent | User | Stop | Restart

  /** All strategies, in their order of declaration. */
  const AllStrategies: seq<ConciliationStrategy> := [Senior, Recent, User, Stop, Restart]

  /** The name of a strategy, as the enumeration spells it. */
  function Name(s: ConciliationStrategy): string
  {
    match s
    case Senior => "SENIOR"
    case Recent => "RECENT"
    case User => "USER"
    case Stop => "STOP"
    case Restart => "RESTART"
  }

  /** The strategy a name stands for, if any. */
  function FromName(name: string): (r: Option<ConciliationStrategy>)
    ensures r.Some? ==> Name(r.value) == name
    ensures forall s :: Name(s) == name ==> r == Some(s)
  {
    if name == "SENIOR" then Some(Senior)
    else if name == "RECENT" then Some(Recent)
    else if name == "USER" then Some(User)
    else if name == "STOP" then Some(Stop)
    else if name == "RESTART" then Some(Restart)
    else None
  }

  function LowerChar(c: char): char
  {
    if 'A' <= c <= 'Z' then (c as int + 32) as char else c
  }

  function UpperChar(c: char): char
  {
    if 'a' <= c <= 'z' then (c as int - 32) as char else c
  }

  /** str.lower on ASCII text. */
  function Lower(s: string): string
  {
    seq(|s|, i requires 0 <= i < |s| => LowerChar(s[i]))
  }

  /** str.upper on ASCII text. */
  function Upper(s: string): string
  {
    seq(|s|, i requires 0 <= i < |s| => UpperChar(s[i]))
  }

  /** The lower-case spelling of each strategy's name. */
  function Spelling(s: ConciliationStrategy): string
  {
    match s
    case Senior => "senior"
    case Recent => "recent"
    case User => "user"
    case Stop => "stop"
    case Restart => "restart"
  }

  /** Lower-casing a name gives its spelling, and upper-casing the spelling gives the name back. */
  lemma NameSpelling(s: ConciliationStrategy)
    ensures Lower(Name(s)) == Spelling(s)
    ensures Upper(Spelling(s)) == Name(s)
  {
  }

  /** The lower-case names of some strategies, in order. */
  function LowerNames(ss: seq<ConciliationStrategy>): seq<string>
  {
    seq(|ss|, i requires 0 <= i < |ss| => Lower(Name(ss[i])))
  }

  /** list.remove: drops the first occurrence of `x`. */
  function RemoveFirst(xs: seq<string>, x: string): seq<string>
    requires x in xs
  {
    if xs[0] == x then xs[1..] else [xs[0]] + RemoveFirst(xs[1..], x)
  }

  /** Removing drops one occurrence of `x` and keeps everything else. */
  lemma {:induction false} RemoveFirstDropsOne(xs: seq<string>, x: string)
    requires x in xs
    ensures multiset(RemoveFirst(xs, x)) + multiset{x} == multiset(xs)
  {
    assert xs == [xs[0]] + xs[1..];
    if xs[0] != x {
      RemoveFirstDropsOne(xs[1..], x);
    }
  }

  lemma LowerNamesOfAll()
    ensures LowerNames(AllStrategies) == ["senior", "recent", "user", "stop", "restart"]
  {
    forall s ensures Lower(Name(s)) == Spelling(s) {
      NameSpelling(s);
    }
  }

  /** The strategies the page offers: every strategy's lower-case name but the user's. */
  function OfferedStrategies(): seq<string>
  {
    assert LowerNames(AllStrategies)[2] == Lower(Name(User));
    RemoveFirst(LowerNames(AllStrategies), Lower(Name(User)))
  }

  /** The page offers the strategies other than USER, by lower-case name, in declaration order. */
  lemma OfferedStrategiesSpelled()
    ensures OfferedStrategies() == ["senior", "recent", "stop", "restart"]
  {
    LowerNamesOfAll();
    NameSpelling(User);
    assert RemoveFirst(["senior", "recent", "user", "stop", "restart"], "user") == ["senior", "recent", "stop", "restart"];

  }

  /** A strategy is offered exactly when it is not USER. */
  lemma OfferedStrategiesAreAllButUser()
    ensures forall s :: Lower(Name(s)) in OfferedStrategies() <==> s != User
  {
    OfferedStrategiesSpelled();
    forall s ensures Lower(Name(s)) == Spelling(s) {
      NameSpelling(s);
    }
  }

  /** The main page; its constructor keeps the list of strategies it offers. */
  class SupervisorsView {
    var strategies: seq<string>

    constructor ()
      ensures strategies == ["senior", "recent", "stop", "restart"]
      ensures forall s :: Lower(Name(s)) in strategies <==> s != User
    {
      strategies := LowerNames(AllStrategies);
      new;
      assert strategies[2] == Lower(Name(User));
      strategies := RemoveFirst(strategies, Lower(Name(User)));
      OfferedStrategiesSpelled();
      OfferedStrategiesAreAllButUser();
    }
  }

  /** The actions a request may name that take no parameter. */
  const GlobalActions: seq<string> := ["refresh", "sup_restart", "sup_shutdown"]

  /** The actions a request may name about one process on one address. */
  const ProcessActions: seq<string> := ["pstop", "pkeep"]

  /** What a request triggers. */
  datatype Callback =
    | RefreshAction
    | RestartAction
    | ShutdownAction
    | ConciliationRequest(namespec: Option<string>, action: string)
    | StopRequestAction(namespec: Option<string>, address: Option<string>)
    | KeepRequestAction(namespec: Option<string>, address: Option<string>)

  /**
    The action a request triggers: global actions first, then strategy names (upper-cased
    for the conciliation), then process actions; any other action triggers nothing.
   */
  function MakeCallback(strategies: seq<string>, namespec: Option<string>, action: string, address: Option<string>)
    : (r: Option<Callback>)
    ensures r.None? <==> action !in GlobalActions && action !in strategies && action !in ProcessActions
    ensures action in GlobalActions ==> r.Some? && (r.value.RefreshAction? || r.value.RestartAction? || r.value.ShutdownAction?)
    ensures action !in GlobalActions && action in strategies ==> r == Some(ConciliationRequest(namespec, Upper(action)))
    ensures action !in GlobalActions && action !in strategies && action in ProcessActions ==>
              r.Some? && (r.value.StopRequestAction? || r.value.KeepRequestAction?)
              && r.value.namespec == namespec && r.value.address == address
    ensures action == "refresh" ==> r == Some(RefreshAction)
    ensures action == "sup_restart" ==> r == Some(RestartAction)
    ensures action == "sup_shutdown" ==> r == Some(ShutdownAction)
    ensures action == "pstop" && action !in strategies ==> r == Some(StopRequestAction(namespec, address))
    ensures action == "pkeep" && action !in strategies ==> r == Some(KeepRequestAction(namespec, address))
  {
    if action == "refresh" then Some(RefreshAction)
    else if action == "sup_restart" then Some(RestartAction)
    else if action == "sup_shutdown" then Some(ShutdownAction)
    else if action in strategies then Some(ConciliationRequest(namespec, Upper(action)))
    else if action == "pstop" then Some(StopRequestAction(namespec, address))
    else if action == "pkeep" then Some(KeepRequestAction(namespec, address))
    else None
  }

  /**
    On the page's own list, each offered strategy triggers the conciliation with that
    strategy, and the user strategy triggers nothing.
   */
  lemma OfferedStrategyDispatch(s: ConciliationStrategy, namespec: Option<string>, address: Option<string>)
    ensures s != User ==>
              var r := MakeCallback(OfferedStrategies(), namespec, Lower(Name(s)), address);
              r.Some? && r.value.ConciliationRequest? && FromName(r.value.action) == Some(s)
    ensures s == User ==> MakeCallback(OfferedStrategies(), namespec, Lower(Name(s)), address).None?
  {
    OfferedStrategiesSpelled();
    NameSpelling(s);
  }

  // ---------------------------------------------------------------------------------
  // Notifications and waiters
  // ---------------------------------------------------------------------------------

  /** What polls the effect of a stop request: the process on one address, or all but one. */
  datatype Waiter = StopWaiter(namespec: string, address: string) | KeepWaiter(namespec: string, address: string)

  /** What an action returns to the page. */
  datatype Reply =
    | DelayedInfo(message: string)
    | DelayedError(message: string)
    | Deferred(waiter: Waiter)
    | Raised(exception: string)

  datatype Progress = NotDoneYet | Done(message: string)

  /**
    One poll of a waiter against the addresses the process is running on now: the stop
    waiter is done once its address has left them, the keep waiter once at most one is left.
   */
  function Poll(w: Waiter, running: set<string>): (r: Progress)
    ensures w.StopWaiter? ==> (r.Done? <==> w.address !in running)
    ensures w.KeepWaiter? ==> (r.Done? <==> |running| <= 1)
  {
    match w
    case StopWaiter(namespec, address) =>
      if address in running then NotDoneYet
      else Done("process " + namespec + " stopped on " + address)
    case KeepWaiter(namespec, address) =>
      if |running| > 1 then NotDoneYet
      else Done("processes " + namespec + " stopped, keeping the one running on " + address)
  }

  /** A keep waiter is done as soon as the process runs on the kept address alone, or nowhere. */
  lemma KeepWaiterDoneOnceOthersStopped(w: Waiter, kept: string, running: set<string>)
    requires w.KeepWaiter?
    requires running <= {kept}
    ensures Poll(w, running).Done?
  {
    if running != {} {
      assert running == {kept};
    }
  }

  /** The result of the actions that take no parameter, given the error the remote call raised, if any. */
  function GlobalReply(cb: Callback, rpcError: Option<string>): (r: Reply)
    requires cb.RefreshAction? || cb.RestartAction? || cb.ShutdownAction?
    ensures r.DelayedError? <==> !cb.RefreshAction? && rpcError.Some?
    ensures r.DelayedInfo? || r.DelayedError?
  {
    match cb
    case RefreshAction => DelayedInfo("Page refreshed")
    case RestartAction =>
      if rpcError.Some? then DelayedError("restart: " + rpcError.value) else DelayedInfo("Supervisors restarted")
    case ShutdownAction =>
      if rpcError.Some? then DelayedError("shutdown: " + rpcError.value) else DelayedInfo("Supervisors shut down")
  }

  // ---------------------------------------------------------------------------------
  // Stop and keep actions
  // ---------------------------------------------------------------------------------

  /** One stop_process(address, namespec, wait) call to the requester. */
  datatype StopRequest = StopRequest(address: string, namespec: string, wait: bool)

  /** The requests that stop a process on each of `addresses`, in order, without waiting. */
  function StopRequests(addresses: seq<string>, namespec: string): (r: seq<StopRequest>)
    ensures |r| == |addresses|
    ensures forall i :: 0 <= i < |r| ==> r[i] == StopRequest(addresses[i], namespec, false)
  {
    if addresses == [] then [] else [StopRequest(addresses[0], namespec, false)] + StopRequests(addresses[1..], namespec)
  }

  /** A copy of a set without one of its members, in iteration order. */
  function Without(xs: seq<string>, x: string): (r: seq<string>)
    ensures forall y :: y in r <==> y in xs && y != x
    ensures |r| <= |xs|
    ensures x in xs ==> |r| < |xs|
  {
    if xs == [] then [] else (if xs[0] == x then [] else [xs[0]]) + Without(xs[1..], x)
  }

  /**
    Stops the process on one address. `rejects` gives, for each address whose request
    fails, the message of the error the requester raises.
   */
  method StopAction(namespec: string, address: string, rejects: map<string, string>)
    returns (calls: seq<StopRequest>, reply: Reply)
    ensures calls == [StopRequest(address, namespec, false)]
    ensures address in rejects ==> reply == DelayedError("stop_process: " + rejects[address])
    ensures address !in rejects ==> reply == Deferred(StopWaiter(namespec, address))
  {
    calls := [StopRequest(address, namespec, false)];
    if address in rejects {
      return calls, DelayedError("stop_process: " + rejects[address]);
    }
    reply := Deferred(StopWaiter(namespec, address));
  }

  /**
    The stop requests and the reply of the keep action once the kept address is taken out
    of `others`: each address in turn is stopped until a request fails; `last` is the
    address stopped last, which the waiter names.
   */
  function KeepStops(namespec: string, last: string, others: seq<string>, rejects: map<string, string>)
    : (res: (seq<StopRequest>, Reply))
    ensures |res.0| <= |others|
    ensures res.1.Deferred? || res.1.DelayedError?
    ensures res.1.Deferred? ==> |res.0| == |others|
    decreases |others|
  {
    if others == [] then ([], Deferred(KeepWaiter(namespec, last)))
    else
      var call := StopRequest(others[0], namespec, false);
      if others[0] in rejects then ([call], DelayedError("stop_process: " + rejects[others[0]]))
      else
        var rest := KeepStops(namespec, others[0], others[1..], rejects);
        ([call] + rest.0, rest.1)
  }

  /** The keep action: a KeyError when the kept address is not among the running ones. */
  function Keep(namespec: string, address: string, running: seq<string>, rejects: map<string, string>)
    : (res: (seq<StopRequest>, Reply))
    requires NoDuplicates(running)
    ensures address !in running ==> res == ([], Raised("KeyError"))
    ensures address in running ==> (res.1.Deferred? || res.1.DelayedError?) && |res.0| < |running|
  {
    if address !in running then ([], Raised("KeyError"))
    else KeepStops(namespec, address, Without(running, address), rejects)
  }

  /**
    The requests go to a prefix of the addresses, in order, without waiting; the action
    defers to a waiter exactly when no request fails, and then every address is stopped;
    otherwise it stops at the first failing address and reports its error.
   */
  lemma {:induction false} KeepStopsOutcome(namespec: string, last: string, others: seq<string>, rejects: map<string, string>)
    ensures var (calls, reply) := KeepStops(namespec, last, others, rejects);
      && |calls| <= |others|
      && calls == StopRequests(others[..|calls|], namespec)
      && (reply.Deferred? || reply.DelayedError?)
      && (reply.Deferred? <==> forall a :: a in others ==> a !in rejects)
      && (reply.Deferred? ==>
            |calls| == |others| && reply.waiter == KeepWaiter(namespec, if others == [] then last else others[|others| - 1]))
      && (reply.DelayedError? ==>
            calls != [] && others[|calls| - 1] in rejects
            && reply.message == "stop_process: " + rejects[others[|calls| - 1]]
            && forall i :: 0 <= i < |calls| - 1 ==> others[i] !in rejects)
    decreases |others|
  {
    if others != [] && others[0] !in rejects {
      KeepStopsOutcome(namespec, others[0], others[1..], rejects);
      var rest := KeepStops(namespec, others[0], others[1..], rejects);
      assert others[..|rest.0| + 1] == [others[0]] + others[1..][..|rest.0|];
      assert forall a :: a in others ==> a == others[0] || a in others[1..];
    }
  }

  /**
    When the keep action defers, every address the process runs on but the kept one has
    received a stop request, and none went to the kept one.
   */
  lemma KeepStopsAllButKept(namespec: string, address: string, running: seq<string>, rejects: map<string, string>)
    requires NoDuplicates(running)
    requires address in running
    ensures var (calls, reply) := Keep(namespec, address, running, rejects);
      && (forall c :: c in calls ==> c.address in running && c.address != address)
      && (reply.Deferred? <==> forall a :: a in running && a != address ==> a !in rejects)
      && (reply.Deferred? ==> forall a :: a in running && a != address ==> StopRequest(a, namespec, false) in calls)
  {
    var others := Without(running, address);
    KeepStopsOutcome(namespec, address, others, rejects);
    var calls := KeepStops(namespec, address, others, rejects).0;
    assert forall c :: c in calls ==> c.address in others[..|calls|];
    if KeepStops(namespec, address, others, rejects).1.Deferred? {
      assert others[..|calls|] == others;
      forall a | a in running && a != address
        ensures StopRequest(a, namespec, false) in calls
      {
        var k :| 0 <= k < |others| && others[k] == a;
        assert calls[k] == StopRequest(a, namespec, false);
      }
    }
  }

  /**
    Stops the process on every address it runs on but the kept one, in iteration order,
    until a request fails.
   */
  method KeepAction(namespec: string, address: string, running: seq<string>, rejects: map<string, string>)
    returns (calls: seq<StopRequest>, reply: Reply)
    requires NoDuplicates(running)
    ensures calls == Keep(namespec, address, running, rejects).0
    ensures reply == Keep(namespec, address, running, rejects).1
  {
    if address !in running {
      return [], Raised("KeyError");
    }
    var others := Without(running, address);
    calls := [];
    // the address the process was stopped on last (the kept one before any); the waiter names it
    var current := address;
    var i := 0;
    assert others[i..] == others;
    while i < |others|
      invariant 0 <= i <= |others|
      invariant KeepStops(namespec, address, others, rejects).0 == calls + KeepStops(namespec, current, others[i..], rejects).0
      invariant KeepStops(namespec, address, others, rejects).1 == KeepStops(namespec, current, others[i..], rejects).1
    {
      assert others[i..][1..] == others[i + 1..];
      current := others[i];
      calls := calls + [StopRequest(current, namespec, false)];
      if current in rejects {
        return calls, DelayedError("stop_process: " + rejects[current]);
      }
      i := i + 1;
    }
    reply := Deferred(KeepWaiter(namespec, current));
  }

  // ---------------------------------------------------------------------------------
  // Conflicts
  // ---------------------------------------------------------------------------------

  /** A process running on more than one address, with the uptime it has on each. */
  datatype Conflict = Conflict(namespec: string, addresses: seq<string>, uptimes: map<string, int>)

  /** The addresses of a conflict are those of a set, and each has an uptime. */
  predicate WellFormed(c: Conflict)
  {
    NoDuplicates(c.addresses) && forall a :: a in c.addresses ==> a in c.uptimes
  }

  /** One row of the table of conflicts; the first row of a process spans all its rows. */
  datatype Row = Row(namespec: string, rowspan: nat, address: string, uptime: int)

  /** The rows of one process: the first spans them all, the others span nothing. */
  function ProcessRows(c: Conflict): (rows: seq<Row>)
    requires WellFormed(c)
    ensures |rows| == |c.addresses|
    ensures forall i :: 0 <= i < |rows| ==>
              rows[i] == Row(c.namespec, if i == 0 then |c.addresses| else 0, c.addresses[i], c.uptimes[c.addresses[i]])
  {
    seq(|c.addresses|, i requires 0 <= i < |c.addresses| =>
      Row(c.namespec, if i == 0 then |c.addresses| else 0, c.addresses[i], c.uptimes[c.addresses[i]]))
  }

  /** The rows of the table of conflicts: one per process and running address, in order. */
  function ConflictRows(conflicts: seq<Conflict>): seq<Row>
    requires forall c :: c in conflicts ==> WellFormed(c)
  {
    if conflicts == [] then [] else ProcessRows(conflicts[0]) + ConflictRows(conflicts[1..])
  }

  /** Every row of the table belongs to a conflicting process, at one of its addresses, with that address's uptime. */
  lemma {:induction false} ConflictRowsBelong(conflicts: seq<Conflict>)
    requires forall c :: c in conflicts ==> WellFormed(c)
    ensures forall r :: r in ConflictRows(conflicts) ==>
              exists c :: c in conflicts && c.namespec == r.namespec && r.address in c.addresses
                && r.address in c.uptimes && r.uptime == c.uptimes[r.address]
  {
    if conflicts != [] {
      var c := conflicts[0];
      ConflictRowsBelong(conflicts[1..]);
      forall r | r in ConflictRows(conflicts)
        ensures exists c :: c in conflicts && c.namespec == r.namespec && r.address in c.addresses
                  && r.address in c.uptimes && r.uptime == c.uptimes[r.address]
      {
        if r in ProcessRows(c) {
          assert c in conflicts;
        } else {
          assert r in ConflictRows(conflicts[1..]);
        }
      }
    }
  }

  function AddressCount(conflicts: seq<Conflict>): nat
  {
    if conflicts == [] then 0 else |conflicts[0].addresses| + AddressCount(conflicts[1..])
  }

  function RowspanSum(rows: seq<Row>): nat
  {
    if rows == [] then 0 else rows[0].rowspan + RowspanSum(rows[1..])
  }

  lemma {:induction false} RowspanSumAppend(a: seq<Row>, b: seq<Row>)
    ensures RowspanSum(a + b) == RowspanSum(a) + RowspanSum(b)
  {
    if a != [] {
      assert (a + b)[0] == a[0];
      assert (a + b)[1..] == a[1..] + b;
      RowspanSumAppend(a[1..], b);
    } else {
      assert a + b == b;
    }
  }

  lemma ProcessRowsSpan(c: Conflict)
    requires WellFormed(c)
    ensures RowspanSum(ProcessRows(c)) == |c.addresses|
  {
    var rows := ProcessRows(c);
    if rows != [] {
      assert RowspanSum(rows[1..]) == 0 by {
        var rest := rows[1..];
        assert forall r :: r in rest ==> r.rowspan == 0;
        ZeroRowspans(rest);
      }
    }
  }

  lemma {:induction false} ZeroRowspans(rows: seq<Row>)
    requires forall r :: r in rows ==> r.rowspan == 0
    ensures RowspanSum(rows) == 0
  {
    if rows != [] {
      ZeroRowspans(rows[1..]);
    }
  }

  /** The table has one row per process and address, and the rowspans add up to the number of rows. */
  lemma {:induction false} ConflictRowsShape(conflicts: seq<Conflict>)
    requires forall c :: c in conflicts ==> WellFormed(c)
    ensures |ConflictRows(conflicts)| == AddressCount(conflicts)
    ensures RowspanSum(ConflictRows(conflicts)) == |ConflictRows(conflicts)|
  {
    if conflicts != [] {
      ConflictRowsShape(conflicts[1..]);
      ProcessRowsSpan(conflicts[0]);
      RowspanSumAppend(ProcessRows(conflicts[0]), ConflictRows(conflicts[1..]));
    }
  }

  /**
    The table lays the rows of each process out one after the other: the i-th row of the
    k-th process sits after the rows of the processes before it.
   */
  lemma {:induction false} ConflictRowsLayout(conflicts: seq<Conflict>, k: nat, i: nat)
    requires forall c :: c in conflicts ==> WellFormed(c)
    requires k < |conflicts| && i < |conflicts[k].addresses|
    ensures AddressCount(conflicts[..k]) + i < |ConflictRows(conflicts)|
    ensures ConflictRows(conflicts)[AddressCount(conflicts[..k]) + i] == ProcessRows(conflicts[k])[i]
  {
    var head := ProcessRows(conflicts[0]);
    var tail := conflicts[1..];
    var rest := ConflictRows(tail);
    assert ConflictRows(conflicts) == head + rest;
    if k == 0 {
      assert AddressCount(conflicts[..0]) == 0;
      assert ConflictRows(conflicts)[i] == head[i];
    } else {
      ConflictRowsLayout(tail, k - 1, i);
      AddressCountOfPrefix(conflicts, k);
      assert tail[k - 1] == conflicts[k];
      var j := AddressCount(tail[..k - 1]) + i;
      assert AddressCount(conflicts[..k]) + i == |head| + j;
      assert ConflictRows(conflicts)[|head| + j] == rest[j];
      assert rest[j] == ProcessRows(conflicts[k])[i];
    }
  }

  lemma AddressCountOfPrefix(conflicts: seq<Conflict>, k: nat)
    requires 0 < k <= |conflicts|
    ensures AddressCount(conflicts[..k]) == |conflicts[0].addresses| + AddressCount(conflicts[1..][..k - 1])
  {
    assert conflicts[..k][0] == conflicts[0];
    assert conflicts[..k][1..] == conflicts[1..][..k - 1];
  }

  /** The page shows the table of conflicts, rather than the address boxes, only in conciliation with conflicts. */
  function ShowsConflicts(state: SupervisorsState, conflicts: seq<Conflict>): (r: bool)
    ensures r ==> state == Conciliation && |conflicts| > 0
    ensures state == Conciliation && conflicts != [] ==> r
  {
    state == Conciliation && conflicts != []
  }

  /** One call of the conciliation: the strategy and the processes (by namespec) it is applied to. */
  datatype ConciliateCall = ConciliateCall(strategy: ConciliationStrategy, namespecs: seq<string>)

  /**
    Conciliates the one process a namespec names, or else every process in conflict,
    with the strategy the upper-cased action names.
   */
  function ConciliationAction(namespec: Option<string>, action: string, conflicts: seq<string>)
    : (res: (ConciliateCall, Reply))
    requires FromName(action).Some?
    ensures Name(res.0.strategy) == action
    ensures Truthy(namespec) ==> res.0.namespecs == [namespec.value]
    ensures !Truthy(namespec) ==> res.0.namespecs == conflicts
    ensures res.1.DelayedInfo?
  {
    var strategy := FromName(action).value;
    if Truthy(namespec) then
      (ConciliateCall(strategy, [namespec.value]), DelayedInfo(action + " in progress for " + namespec.value))
    else
      (ConciliateCall(strategy, conflicts), DelayedInfo(action + " in progress for all conflicts"))
  }
}
