/** manageShutdownProcess: one handler, registered for six process
    events, that sends a kill to every registered child and then exits
    with status 0 when there was at least one child.
 */
module ExitHandler {
  import opened Js

  /** The events the handler is registered for, in registration order. */
  const Events: seq<string> := ["exit", "SIGINT", "SIGUSR1", "SIGUSR2", "uncaughtException", "SIGTERM"]

  /** How a handler run ended: the pids it called process.kill on, in
      order, the exit status it called process.exit with, if any, and
      whether it threw. */
  datatype Outcome = Outcome(kills: seq<Value>, exit: Option<int>, threw: bool)

  /** The pid the handler reads from a child entry (`child.pid`); `None`
      when the entry is `null` or `undefined`, where reading it throws. */
  function PidOf(child: Value): Option<Value> {
    Get(child, "pid")
  }

  /** The kill of the child at position `j` goes through: its entry has a
      pid and process.kill does not throw for it (`killOk` stands for the
      operating system's answer). */
  predicate KillGoesThrough(children: Props, killOk: nat -> bool, j: nat)
    requires j < |children|
  {
    PidOf(children[j].1).Some? && killOk(j)
  }

  /** The kill of child `m` is the first that does not go through: the
      handler throws there, after the kills before it. */
  predicate StopsAt(children: Props, killOk: nat -> bool, m: nat)
    requires m < |children|
  {
    && !KillGoesThrough(children, killOk, m)
    && forall i :: 0 <= i < m ==> KillGoesThrough(children, killOk, i)
  }

  /** The handler over a snapshot of the children registry. The kills are
      sent in key enumeration order; a throw (a missing child or a failing
      kill) ends the run there. The registry is only read. */
  method Handle(children: Props, killOk: nat -> bool) returns (o: Outcome)
    requires UniqueKeys(children)
    ensures o.threw <==> exists j :: 0 <= j < |children| && !KillGoesThrough(children, killOk, j)
    ensures |o.kills| <= |children|
    ensures forall j :: 0 <= j < |o.kills| ==>
      PidOf(children[j].1).Some? && o.kills[j] == PidOf(children[j].1).value
    ensures !o.threw ==> |o.kills| == |children|
    ensures o.threw ==>
      exists m :: (0 <= m < |children| && StopsAt(children, killOk, m) &&
                   |o.kills| == (if PidOf(children[m].1).Some? then m + 1 else m))
    ensures o.exit.Some? <==> !o.threw && |children| > 0
    ensures o.exit.Some? ==> o.exit.value == 0
  {
    var names := Keys(children);
    KeysAt(children);
    var kills: seq<Value> := [];
    var j := 0;
    while j < |names|
      invariant 0 <= j <= |names|
      invariant |kills| == j
      invariant forall i :: 0 <= i < j ==>
        KillGoesThrough(children, killOk, i) && kills[i] == PidOf(children[i].1).value
    {
      LookupAt(children, j);
      var pid := PidOf(Lookup(children, names[j]));
      if pid.None? {
        assert StopsAt(children, killOk, j);
        return Outcome(kills, None, true);
      }
      kills := kills + [pid.value];
      if !killOk(j) {
        assert StopsAt(children, killOk, j);
        return Outcome(kills, None, true);
      }
      j := j + 1;
    }
    var exit := if |names| > 0 then Some(0) else None;
    o := Outcome(kills, exit, false);
  }

  /** The process listener table: for each event, the handlers in the
      order they were added. */
  type Listeners = seq<(string, nat)>

  /** The registration loop: `handler` is added once per event, in order,
      after whatever listeners were already there. */
  function Install(listeners: Listeners, handler: nat): (r: Listeners)
    ensures |r| == |listeners| + |Events|
    ensures r[..|listeners|] == listeners
    ensures forall i :: 0 <= i < |Events| ==> r[|listeners| + i] == (Events[i], handler)
  {
    listeners + Registrations(Events, handler)
  }

  /** The handlers a delivered event runs, in order. */
  function HandlersFor(listeners: Listeners, event: string): (hs: seq<nat>)
    ensures |hs| <= |listeners|
  {
    if listeners == [] then []
    else (if listeners[0].0 == event then [listeners[0].1] else []) + HandlersFor(listeners[1..], event)
  }

  /** One listener per name, all running `handler`. */
  function Registrations(names: seq<string>, handler: nat): (r: Listeners)
    ensures |r| == |names|
    ensures forall i :: 0 <= i < |names| ==> r[i] == (names[i], handler)
  {
    seq(|names|, i requires 0 <= i < |names| => (names[i], handler))
  }

  /** With distinct names, an event runs the handler once if it is one of
      the names and never otherwise. */
  lemma {:induction false} DistinctRegistrations(names: seq<string>, handler: nat, event: string)
    requires forall i, j :: 0 <= i < j < |names| ==> names[i] != names[j]
    ensures HandlersFor(Registrations(names, handler), event) == if event in names then [handler] else []
  {
    var r := Registrations(names, handler);
    if names != [] {
      assert r[1..] == Registrations(names[1..], handler);
      DistinctRegistrations(names[1..], handler, event);
      assert event in names <==> event == names[0] || event in names[1..];
      if event == names[0] {
        assert event !in names[1..] by {
          forall k | 0 <= k < |names[1..]| ensures names[1..][k] != event {
            assert names[1..][k] == names[k + 1];
          }
        }
      }
    }
  }

  /** Installed on a fresh listener table, every one of the six events runs
      the handler exactly once per delivery, whichever event came first:
      nothing unregisters it after a first run. Any other event runs
      nothing. */
  lemma EveryEventRunsHandler(handler: nat, event: string)
    ensures HandlersFor(Install([], handler), event) == if event in Events then [handler] else []
  {
    var none: Listeners := [];
    assert Install(none, handler) == none + Registrations(Events, handler) == Registrations(Events, handler);
    EventsDistinct();
    DistinctRegistrations(Events, handler, event);
  }

  /** No event is registered under two names. */
  lemma EventsDistinct()
    ensures forall i, j :: 0 <= i < j < |Events| ==> Events[i] != Events[j]
  {
    assert "SIGUSR1"[6] != "SIGUSR2"[6];
    assert "SIGUSR1"[3] != "SIGTERM"[3];
    assert "SIGUSR2"[3] != "SIGTERM"[3];
  }
}
