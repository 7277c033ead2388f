/** The Test Infrastructure Runner (TIR): its domain registry, the guards
    and argument juggling of its entry points, the counters that decide
    when a callback fires, and the thin wrappers around the ApiHub test
    node launcher.
 */
module Tir {
  import opened Js
  import opened Io
  import opened LauncherUtils
  import opened Launcher

  // ---------------------------------------------------------------------
  // Domain registry
  // ---------------------------------------------------------------------

  /** The record addDomain stores. `key` is what createKey makes of the
      domain name and `defaultBundles` the resolved bundles folder. */
  function DomainRecord(rootFolder: string, name: string, key: string, agents: Value,
                        constitutionSourceFolder: Value, bundlesSourceFolder: Value,
                        defaultBundles: string): Value
  {
    var workspace := rootFolder + "/nodes/" + key;
    Obj([
      ("name", Str(name)),
      ("agents", agents),
      ("constitutionSourceFolder", constitutionSourceFolder),
      ("bundlesSourceFolder", if Truthy(bundlesSourceFolder) then bundlesSourceFolder else Str(defaultBundles)),
      ("workspace", Str(workspace)),
      ("blockchain", Str(workspace + "/conf"))
    ])
  }

  /** The stored record keeps the name, agents and constitution folder as
      given, sits in `<root>/nodes/<key>`, keeps its blockchain in that
      workspace's `conf`, and falls back to the bundles folder when no
      bundles folder is given. */
  lemma DomainRecordFields(rootFolder: string, name: string, key: string, agents: Value,
                           constitutionSourceFolder: Value, bundlesSourceFolder: Value, defaultBundles: string)
    ensures var r := DomainRecord(rootFolder, name, key, agents, constitutionSourceFolder, bundlesSourceFolder, defaultBundles);
      && r.Obj? && UniqueKeys(r.props)
      && Lookup(r.props, "name") == Str(name)
      && Lookup(r.props, "agents") == agents
      && Lookup(r.props, "constitutionSourceFolder") == constitutionSourceFolder
      && Lookup(r.props, "workspace") == Str(rootFolder + "/nodes/" + key)
      && Lookup(r.props, "blockchain") == Str(rootFolder + "/nodes/" + key + "/conf")
      && Lookup(r.props, "bundlesSourceFolder") ==
           (if Truthy(bundlesSourceFolder) then bundlesSourceFolder else Str(defaultBundles))
  {
    var r := DomainRecord(rootFolder, name, key, agents, constitutionSourceFolder, bundlesSourceFolder, defaultBundles);
    assert UniqueKeys(r.props);
    LookupAt(r.props, 0);
    LookupAt(r.props, 1);
    LookupAt(r.props, 2);
    LookupAt(r.props, 3);
    LookupAt(r.props, 4);
    LookupAt(r.props, 5);
  }

  /** addDomain: the record is stored under the domain name, replacing a
      previous one in place; every other registered domain is untouched. */
  function AddDomain(configs: Props, rootFolder: string, name: string, key: string, agents: Value,
                     constitutionSourceFolder: Value, bundlesSourceFolder: Value, defaultBundles: string): (r: Props)
    ensures Lookup(r, name) ==
      DomainRecord(rootFolder, name, key, agents, constitutionSourceFolder, bundlesSourceFolder, defaultBundles)
    ensures forall other :: other != name ==> Lookup(r, other) == Lookup(configs, other)
    ensures name in Keys(configs) ==> Keys(r) == Keys(configs)
    ensures name !in Keys(configs) ==> Keys(r) == Keys(configs) + [name]
    ensures UniqueKeys(configs) ==> UniqueKeys(r)
  {
    Put(configs, name,
        DomainRecord(rootFolder, name, key, agents, constitutionSourceFolder, bundlesSourceFolder, defaultBundles))
  }

  // ---------------------------------------------------------------------
  // launch
  // ---------------------------------------------------------------------

  /** The TIR's mutable slots. */
  datatype State = State(domainConfigs: Props, testerNode: Value, virtualMQNode: Value)

  /** Whether `v.call` is truthy: functions inherit `call`, objects may own one. */
  predicate HasCall(v: Value) {
    v.Fn? || (v.Obj? && Truthy(Lookup(v.props, "call")))
  }

  datatype LaunchArgs = LaunchArgs(tearDownAfter: Value, callable: Value)

  /** The checks at the head of launch: a lone callback moves into place
      (reading `.call` of a null or undefined timeout throws), then a tester
      node or a VirtualMQ node already set refuses the launch. On success
      the countdown of domains left to start is the number of registered
      domains. */
  function StartLaunch(s: State, tearDownAfter: Value, callable: Value): (r: Result<(LaunchArgs, int)>)
    ensures callable.Undefined? && Nullish(tearDownAfter) ==> r.Err? && r.error.TypeError?
    ensures (!callable.Undefined? || !Nullish(tearDownAfter)) && !s.testerNode.Null? ==>
      r == Err(Thrown("Test node already launched!"))
    ensures (!callable.Undefined? || !Nullish(tearDownAfter)) && s.testerNode.Null? && !s.virtualMQNode.Null? ==>
      r == Err(Thrown("VirtualMQ node already launched!"))
    ensures r.Ok? <==> (!callable.Undefined? || !Nullish(tearDownAfter)) && s.testerNode.Null? && s.virtualMQNode.Null?
    ensures r.Ok? ==> r.value.1 == |s.domainConfigs|
    ensures r.Ok? && callable.Undefined? && HasCall(tearDownAfter) ==> r.value.0 == LaunchArgs(Null, tearDownAfter)
    ensures r.Ok? && !(callable.Undefined? && HasCall(tearDownAfter)) ==> r.value.0 == LaunchArgs(tearDownAfter, callable)
  {
    if callable.Undefined? && Nullish(tearDownAfter) then
      Err(TypeError("Cannot read properties of " + NullishName(tearDownAfter) + " (reading 'call')"))
    else
      var args := if callable.Undefined? && HasCall(tearDownAfter) then LaunchArgs(Null, tearDownAfter)
                  else LaunchArgs(tearDownAfter, callable);
      if !s.testerNode.Null? then Err(Thrown("Test node already launched!"))
      else if !s.virtualMQNode.Null? then Err(Thrown("VirtualMQ node already launched!"))
      else Ok((args, |Keys(s.domainConfigs)|))
  }

  /** callCallbackWhenAllDomainsStarted over `messages` boot messages, from
      a countdown of `n`: the callable fires once, on message number `n`,
      and only if `n` is at least one; the countdown keeps going down. */
  method DomainCountdown(n: int, messages: nat) returns (left: int, firedAt: seq<nat>)
    ensures left == n - messages
    ensures firedAt == if 1 <= n <= messages then [n] else []
  {
    left := n;
    firedAt := [];
    var received := 0;
    while received < messages
      invariant 0 <= received <= messages
      invariant left == n - received
      invariant firedAt == if 1 <= n <= received then [n] else []
    {
      received := received + 1;
      left := left - 1;
      if left == 0 {
        firedAt := firedAt + [received];
      }
    }
  }

  /** The errors among a sequence of replies, in order. */
  function Errors(replies: seq<Option<Error>>): (es: seq<Option<Error>>)
    ensures forall i :: 0 <= i < |es| ==> es[i].Some?
    ensures |es| <= |replies|
  {
    if replies == [] then []
    else (if replies[0].Some? then [replies[0]] else []) + Errors(replies[1..])
  }

  lemma {:induction false} ErrorsAppend(a: seq<Option<Error>>, b: seq<Option<Error>>)
    ensures Errors(a + b) == Errors(a) + Errors(b)
  {
    if a != [] {
      assert (a + b)[1..] == a[1..] + b;
      assert (a + b)[0] == a[0];
      ErrorsAppend(a[1..], b);
      var head := if a[0].Some? then [a[0]] else [];
      assert Errors(a + b) == head + Errors(a[1..] + b);
      assert head + (Errors(a[1..]) + Errors(b)) == (head + Errors(a[1..])) + Errors(b);
    } else {
      assert a + b == b;
    }
  }

  /** A sequence without errors holds only successes. */
  lemma {:induction false} NoErrors(s: seq<Option<Error>>)
    requires Errors(s) == []
    ensures forall i :: 0 <= i < |s| ==> s[i].None?
  {
    if s != [] {
      NoErrors(s[1..]);
      forall i | 0 <= i < |s| ensures s[i].None? {
        if i > 0 { assert s[i] == s[1..][i - 1]; }
      }
    }
  }

  /** Replies that all succeeded hold no errors. */
  lemma {:induction false} AllOkNoErrors(s: seq<Option<Error>>)
    requires forall i :: 0 <= i < |s| ==> s[i].None?
    ensures Errors(s) == []
  {
    if s != [] {
      AllOkNoErrors(s[1..]);
    }
  }

  /** All of the first `k` replies succeeded. */
  predicate AllOk(replies: seq<Option<Error>>, k: int)
    requires 0 <= k <= |replies|
  {
    forall i :: 0 <= i < k ==> replies[i].None?
  }

  /** The transactions that register a domain's agents. Only a non-empty
      agent list starts any: one per agent plus the domain config, and each
      reply goes to maybeCallCallback. An error latches the counter at -1
      and is passed on; success (`None`) is reported when the counter
      reaches zero, which can only happen if every one of the first
      `agents + 1` replies succeeded. Without agents, success is reported
      at once. */
  method AgentTransactions(agents: Value, replies: seq<Option<Error>>) returns (calls: seq<Option<Error>>)
    ensures !(agents.Arr? && |agents.items| > 0) ==> calls == [None]
    ensures agents.Arr? && |agents.items| > 0 ==>
      && Errors(calls) == Errors(replies)
      && (None in calls <==> |replies| > |agents.items| && AllOk(replies, |agents.items| + 1))
      && (forall j :: 0 < j < |calls| ==> calls[j].Some?)
  {
    if !(agents.Arr? && |agents.items| > 0) {
      return [None];
    }
    var needed := |agents.items| + 1;
    var left := needed;
    calls := [];
    var k := 0;
    while k < |replies|
      invariant 0 <= k <= |replies|
      invariant Errors(calls) == Errors(replies[..k])
      invariant AllOk(replies, k) ==> left == needed - k
      invariant !AllOk(replies, k) ==> left < 0
      invariant None in calls <==> k >= needed && AllOk(replies, needed)
      invariant forall j :: 0 < j < |calls| ==> calls[j].Some?
    {
      var reply := replies[k];
      var nextLeft := if reply.Some? then -1 else left - 1;
      var nextCalls := if reply.Some? then calls + [reply] else if nextLeft == 0 then calls + [None] else calls;
      CounterStep(replies, k);
      ErrorsStep(calls, replies, k, nextCalls);
      if nextLeft == 0 {
        NoCallsYet(calls, replies, k);
      }
      left, calls, k := nextLeft, nextCalls, k + 1;
    }
    assert replies[..|replies|] == replies;
  }

  /** Passing on an error reply, or adding a success, keeps the reported
      errors equal to the errors received. */
  lemma ErrorsStep(calls: seq<Option<Error>>, replies: seq<Option<Error>>, k: int, next: seq<Option<Error>>)
    requires 0 <= k < |replies|
    requires Errors(calls) == Errors(replies[..k])
    requires replies[k].Some? ==> next == calls + [replies[k]]
    requires replies[k].None? ==> next == calls || next == calls + [None]
    ensures Errors(next) == Errors(replies[..k + 1])
  {
    assert replies[..k + 1] == replies[..k] + [replies[k]];
    ErrorsAppend(replies[..k], [replies[k]]);
    ErrorsAppend(calls, [replies[k]]);
    ErrorsAppend(calls, [None]);
  }

  /** While every reply so far succeeded and no success was reported, the
      callback has not been called. */
  lemma NoCallsYet(calls: seq<Option<Error>>, replies: seq<Option<Error>>, k: int)
    requires 0 <= k <= |replies|
    requires Errors(calls) == Errors(replies[..k])
    requires AllOk(replies, k) && None !in calls
    ensures calls == []
  {
    AllOkNoErrors(replies[..k]);
    NoErrors(calls);
  }

  /** One more reply keeps all replies so far successful exactly when it
      is a success. */
  lemma CounterStep(replies: seq<Option<Error>>, k: int)
    requires 0 <= k < |replies|
    ensures AllOk(replies, k + 1) <==> AllOk(replies, k) && replies[k].None?
  {
  }

  // ---------------------------------------------------------------------
  // zeromq monitor
  // ---------------------------------------------------------------------

  /** The bind budget of launchLocalMonitor: 100 unless a non-negative
      number is given. */
  function MonitorTries(maxTries: Value): (n: nat)
    ensures maxTries.Num? && maxTries.n >= 0 ==> n == maxTries.n
    ensures !(maxTries.Num? && maxTries.n >= 0) ==> n == 100
  {
    if maxTries.Fn? then 100
    else if !maxTries.Num? || maxTries.n < 0 then 100
    else maxTries.n
  }

  /** The bind loop of launchLocalMonitor: each round draws a port and tries
      to bind it, one tick per round, until one binds or the budget is
      spent; then it throws. */
  method BindMonitor(maxTries: Value, w: World, t: nat) returns (r: Result<int>, time: nat)
    ensures t <= time <= t + MonitorTries(maxTries)
    ensures r.Ok? ==> time > t && r.value == w.randomPort(time - 1) && !w.fails(ZmqBind, time - 1)
    ensures r.Ok? ==> forall u :: t <= u < time - 1 ==> w.fails(ZmqBind, u)
    ensures r.Err? ==> r.error == Thrown("Could not find a free port for zeromq")
    ensures r.Err? ==> time == t + MonitorTries(maxTries) && forall u :: t <= u < time ==> w.fails(ZmqBind, u)
  {
    var tries := MonitorTries(maxTries);
    var found := false;
    var port := 0;
    time := t;
    while !found && tries > 0
      invariant t <= time && time - t + tries == MonitorTries(maxTries)
      invariant found ==> time > t && port == w.randomPort(time - 1) && !w.fails(ZmqBind, time - 1)
      invariant found ==> forall u :: t <= u < time - 1 ==> w.fails(ZmqBind, u)
      invariant !found ==> forall u :: t <= u < time ==> w.fails(ZmqBind, u)
      decreases tries
    {
      port := w.randomPort(time);
      tries := tries - 1;
      if !w.fails(ZmqBind, time) {
        found := true;
      }
      time := time + 1;
    }
    if !found {
      return Err(Thrown("Could not find a free port for zeromq")), time;
    }
    r := Ok(port);
  }

  // ---------------------------------------------------------------------
  // VirtualMQ node
  // ---------------------------------------------------------------------

  /** The argument shuffle of launchVirtualMQNode: the launcher options and
      the callback. */
  function VirtualMQArgs(maxTries: Value, rootFolder: Value, callback: Value): (r: (Value, Value))
    ensures TypeOf(maxTries) == "object" ==> r == (maxTries, rootFolder)
    ensures TypeOf(maxTries) != "object" && rootFolder.Fn? ==>
      r == (Obj([("maxTries", Num(100)), ("rootFolder", maxTries)]), rootFolder)
    ensures TypeOf(maxTries) != "object" && !rootFolder.Fn? && maxTries.Fn? ==>
      r == (Obj([("maxTries", Num(100)), ("rootFolder", rootFolder)]), maxTries)
    ensures TypeOf(maxTries) != "object" && !rootFolder.Fn? && !maxTries.Fn? ==>
      r == (Obj([("maxTries", maxTries), ("rootFolder", rootFolder)]), callback)
  {
    if TypeOf(maxTries) == "object" then (maxTries, rootFolder)
    else
      var (m, folder, cb) := if TypeOf(rootFolder) == "function" then (Num(100), maxTries, rootFolder)
                             else (maxTries, rootFolder, callback);
      var (m', cb') := if TypeOf(m) == "function" then (Num(100), m) else (m, cb);
      (Obj([("maxTries", m'), ("rootFolder", folder)]), cb')
  }

  /** How a launch through the TIR ends, as its callback or promise sees it. */
  datatype Delivery<+T> = Delivery(outcome: Settled<T>, state: State)

  /** The node fields launchAsync resolves with, except the node itself. */
  datatype Summary = Summary(
    port: Value,
    rootFolder: Value,
    storageFolder: Value,
    domainSeed: Value,
    validatorDID: Value,
    validatorURL: string,
    validatorDIDInstance: Value)

  function Rest(res: LaunchResult): Summary {
    Summary(res.port, res.rootFolder, res.storageFolder, res.domainSeed, res.validatorDID,
            res.validatorURL, res.validatorDIDInstance)
  }

  /** The launcher run behind a TIR entry point, and the state it leaves:
      on success the node becomes the VirtualMQ node. */
  function LaunchNode(s: State, options: Value, freshFolder: string, w: World, sys: Sys): (r: (Run, State))
    requires AcceptableOptions(options)
    ensures r.0.outcome.Resolves? ==> r.1 == s.(virtualMQNode := r.0.outcome.value.node)
    ensures !r.0.outcome.Resolves? ==> r.1 == s
    ensures r.0.outcome.Resolves? ==> WellLaunched(New(options, freshFolder), r.0.outcome.value)
  {
    var run := LaunchAsync(New(options, freshFolder), w, sys);
    (run, if run.outcome.Resolves? then s.(virtualMQNode := run.outcome.value.node) else s)
  }

  /** Options the VirtualMQ launch can pass on. */
  predicate VirtualMQAcceptable(maxTries: Value, rootFolder: Value, callback: Value) {
    AcceptableOptions(VirtualMQArgs(maxTries, rootFolder, callback).0)
  }

  /** launchVirtualMQNode: the callback receives the node's port, and the
      node is kept as the VirtualMQ node. */
  function LaunchVirtualMQNode(s: State, maxTries: Value, rootFolder: Value, callback: Value,
                               freshFolder: string, w: World, sys: Sys): (r: Delivery<Value>)
    requires VirtualMQAcceptable(maxTries, rootFolder, callback)
    ensures var run := LaunchAsync(New(VirtualMQArgs(maxTries, rootFolder, callback).0, freshFolder), w, sys);
      && (r.outcome.Resolves? <==> run.outcome.Resolves?)
      && (r.outcome.Resolves? ==> r.outcome.value == run.outcome.value.port
                                  && r.state.virtualMQNode == run.outcome.value.node)
      && (r.outcome.Rejects? <==> run.outcome.Rejects?)
      && (r.outcome.Rejects? ==> r.outcome.error == run.outcome.error)
  {
    var (options, _) := VirtualMQArgs(maxTries, rootFolder, callback);
    var (run, after) := LaunchNode(s, options, freshFolder, w, sys);
    DeliverPort(run, after)
  }

  /** Hands on how a launch settled, with its port as the value. */
  function DeliverPort(run: Run, after: State): (r: Delivery<Value>)
    ensures r.state == after
    ensures r.outcome.Resolves? <==> run.outcome.Resolves?
    ensures r.outcome.Resolves? ==> r.outcome.value == run.outcome.value.port
    ensures r.outcome.Rejects? <==> run.outcome.Rejects?
    ensures r.outcome.Rejects? ==> r.outcome.error == run.outcome.error
  {
    match run.outcome
    case Resolves(res) => Delivery(Resolves(res.port), after)
    case Rejects(e) => Delivery(Rejects(e), after)
    case Pends => Delivery(Pends, after)
  }

  // ---------------------------------------------------------------------
  // Configurable and contract launches
  // ---------------------------------------------------------------------

  /** launchConfigurableApiHubTestNodeAsync's check and default: a truthy
      config that is not an object is refused, a falsy one becomes `{}`. */
  function ConfigurableOptions(config: Value): (r: Result<Value>)
    ensures r.Err? <==> Truthy(config) && TypeOf(config) != "object"
    ensures r.Err? ==> r.error == Thrown("Invalid config specified")
    ensures r.Ok? && Truthy(config) ==> r.value == config
    ensures r.Ok? && !Truthy(config) ==> r.value == Obj([])
  {
    if Truthy(config) && TypeOf(config) != "object" then Err(Thrown("Invalid config specified"))
    else if Truthy(config) then Ok(config)
    else Ok(Obj([]))
  }

  /** Configs the configurable launch can pass on. */
  predicate ConfigurableAcceptable(config: Value) {
    !Truthy(config) || TypeOf(config) != "object" || AcceptableOptions(config)
  }

  /** launchConfigurableApiHubTestNodeAsync: resolves with everything but
      the node, which becomes the VirtualMQ node. */
  function LaunchConfigurable(s: State, config: Value, freshFolder: string, w: World, sys: Sys): (r: Delivery<Summary>)
    requires ConfigurableAcceptable(config)
    ensures ConfigurableOptions(config).Err? ==> r == Delivery(Rejects(Thrown("Invalid config specified")), s)
    ensures ConfigurableOptions(config).Ok? ==>
      var run := LaunchAsync(New(ConfigurableOptions(config).value, freshFolder), w, sys);
      && SummaryRelayed(r, run)
      && (r.outcome.Resolves? ==> r.outcome.value.validatorURL == NodeUrl(r.outcome.value.port)
                                  && r.state.virtualMQNode == run.outcome.value.node)
  {
    match ConfigurableOptions(config)
    case Err(e) => Delivery(Rejects(e), s)
    case Ok(options) =>
      assert AcceptableOptions(options) by {
        ShapedEmpty();
      }
      var (run, after) := LaunchNode(s, options, freshFolder, w, sys);
      DeliverSummary(run, after)
  }

  /** The delivery settles as the launch did: it resolves with everything
      but the node exactly when the launch resolves, and rejects with the
      launch's error exactly when the launch rejects. */
  predicate SummaryRelayed(r: Delivery<Summary>, run: Run) {
    && (r.outcome.Resolves? <==> run.outcome.Resolves?)
    && (r.outcome.Resolves? ==> r.outcome.value == Rest(run.outcome.value))
    && (r.outcome.Rejects? <==> run.outcome.Rejects?)
    && (r.outcome.Rejects? ==> r.outcome.error == run.outcome.error)
  }

  /** Hands on how a launch settled, with everything but the node as the
      value. */
  function DeliverSummary(run: Run, after: State): (r: Delivery<Summary>)
    ensures r.state == after
    ensures SummaryRelayed(r, run)
  {
    match run.outcome
    case Resolves(res) => Delivery(Resolves(Rest(res)), after)
    case Rejects(e) => Delivery(Rejects(e), after)
    case Pends => Delivery(Pends, after)
  }

  lemma ShapedEmpty()
    ensures AcceptableOptions(Obj([]))
  {
    assert ShapedOptions([]);
  }

  /** The arguments the contract launch can handle: any domain but an
      array, an object in the domain position being an options object;
      when the domain is not an object (nor null) the config is used, and
      it may be anything but an array or a non-empty string (those would
      spread into index keys), an object config being an options object. */
  predicate ContractArgsAcceptable(domain: Value, config: Value) {
    && !domain.Arr?
    && (domain.Obj? ==> ShapedOptions(domain.props))
    && (TypeOf(domain) != "object" ==> ConfigArgShape(config))
  }

  /** A config argument the contract launch can spread: falsy, a number, a
      boolean or a function (each spreads to `{}`), or an options object. */
  predicate ConfigArgShape(config: Value) {
    || !Truthy(config) || config.Num? || config.Bool? || config.Fn?
    || (config.Obj? && ShapedOptions(config.props))
  }

  /** The config the contract launch starts from: an object or null in
      the domain position replaces the config (`typeof null` is "object"),
      and a config that is not an object spreads to `{}`. */
  function ContractBase(domain: Value, config: Value): (r: Props)
    requires ContractArgsAcceptable(domain, config)
    ensures ShapedOptions(r)
    ensures domain.Obj? ==> r == domain.props
    ensures domain.Null? ==> r == []
    ensures TypeOf(domain) != "object" ==> r == if config.Obj? then config.props else []
  {
    var cfg := if TypeOf(domain) == "object" then domain else config;
    if cfg.Obj? then cfg.props else assert ShapedOptions([]); []
  }

  /** The options launchApiHubTestNodeWithContractAsync builds: after the
      argument shuffle, with neither a truthy non-object domain argument
      (a name, but equally a number or a function) nor configured domains
      the only domain is "contract", and the build file path is added last.
      Such a domain argument is otherwise unused. */
  function ContractOptions(contractBuildFilePath: Value, domain: Value, config: Value): (r: Result<Props>)
    requires ContractArgsAcceptable(domain, config)
    ensures r.Err? <==> !(Truthy(contractBuildFilePath) && contractBuildFilePath.Str?)
    ensures r.Err? ==> r.error == Thrown("Missing or invalid contractBuildFilePath")
    ensures r.Ok? ==> ShapedOptions(r.value)
    ensures r.Ok? ==> Lookup(r.value, "contractBuildFilePath") == contractBuildFilePath
    ensures r.Ok? ==> var given := ContractBase(domain, config);
      && (!Truthy(Lookup(given, "domains")) && !(Truthy(domain) && TypeOf(domain) != "object") ==>
            Lookup(r.value, "domains") == Arr([Str("contract")]))
      && (Truthy(Lookup(given, "domains")) || (Truthy(domain) && TypeOf(domain) != "object") ==>
            Lookup(r.value, "domains") == Lookup(given, "domains"))
      && (forall k :: k != "domains" && k != "contractBuildFilePath" ==> Lookup(r.value, k) == Lookup(given, k))
  {
    if !Truthy(contractBuildFilePath) || !contractBuildFilePath.Str? then
      Err(Thrown("Missing or invalid contractBuildFilePath"))
    else
      var given := ContractBase(domain, config);
      var withDomains := ContractDomains(given, domain);
      PutKeepsShape(withDomains, "contractBuildFilePath", contractBuildFilePath);
      var built := Put(withDomains, "contractBuildFilePath", contractBuildFilePath);
      assert Lookup(built, "domains") == Lookup(withDomains, "domains");
      Ok(built)
  }

  /** A truthy non-object domain, such as `5`, suppresses the "contract"
      default. */
  lemma NumberDomainSuppressesDefault()
    ensures Lookup(ContractOptions(Str("build.js"), Num(5), Undefined).value, "domains") == Undefined
  {
    var r := ContractOptions(Str("build.js"), Num(5), Undefined);
    assert r.Ok?;
    assert Truthy(Num(5)) && TypeOf(Num(5)) == "number";
    assert ContractBase(Num(5), Undefined) == [];
    assert Lookup(r.value, "domains") == Lookup([], "domains");
  }

  /** A falsy non-object domain, such as `0`, does not suppress it. */
  lemma ZeroDomainKeepsDefault()
    ensures Lookup(ContractOptions(Str("build.js"), Num(0), Undefined).value, "domains") == Arr([Str("contract")])
  {
    var r := ContractOptions(Str("build.js"), Num(0), Undefined);
    assert r.Ok?;
    assert !Truthy(Num(0));
    assert ContractBase(Num(0), Undefined) == [];
    assert !Truthy(Lookup([], "domains"));
  }

  /** A number config spreads to `{}`. */
  lemma NumberConfigSpreadsEmpty()
    ensures ContractBase(Undefined, Num(5)) == []
  {
  }

  /** The domain default of the contract launch: with neither a truthy
      domain argument (an object in the domain position counts as none)
      nor configured domains, the only domain is "contract". */
  function ContractDomains(given: Props, domain: Value): (r: Props)
    requires ShapedOptions(given)
    ensures ShapedOptions(r)
    ensures !Truthy(Lookup(given, "domains")) && !(Truthy(domain) && TypeOf(domain) != "object") ==>
      Lookup(r, "domains") == Arr([Str("contract")])
    ensures Truthy(Lookup(given, "domains")) || (Truthy(domain) && TypeOf(domain) != "object") ==> r == given
    ensures forall k :: k != "domains" ==> Lookup(r, k) == Lookup(given, k)
  {
    var name := if TypeOf(domain) == "object" then Null else domain;
    if !Truthy(name) && !Truthy(Lookup(given, "domains")) then
      assert WellFormedDomains([Str("contract")]);
      PutDomainsKeepsShape(given, Arr([Str("contract")]));
      Put(given, "domains", Arr([Str("contract")]))
    else
      given
  }

  /** What the contract launch resolves with: the launch summary plus the
      config of the contract domain. */
  datatype ContractLaunch = ContractLaunch(summary: Summary, domainConfig: Props)

  /** The config returned as `domainConfig`: the first configured domain's
      config when that entry is an object (patched in place by the launch),
      otherwise `{}`; either way its constitution is set to the seed. */
  function ContractDomainConfig(configured: Value, domains: seq<Value>, seed: Value): (c: Props)
    requires WellFormedDomains(domains)
    ensures Lookup(c, "contracts").Obj?
    ensures Lookup(Lookup(c, "contracts").props, "constitution") == seed
    ensures Truthy(configured) && |domains| > 0 && domains[0].Obj? ==>
      forall k :: k != "contracts" ==> Lookup(c, k) == Lookup(ConfigOf(domains[0]), k)
  {
    var base := if Truthy(configured) && |domains| > 0 && domains[0].Obj? then ConfigOf(domains[0]) else [];
    PatchConfig(base, seed)
  }

  /** Options carrying a build file path make a contract launcher. */
  lemma ContractLauncher(props: Props, freshFolder: string)
    requires ShapedOptions(props) && Truthy(Lookup(props, "contractBuildFilePath"))
    ensures AcceptableOptions(Obj(props))
    ensures Contract(New(Obj(props), freshFolder))
  {
    assert Supplied(Obj(props)) == props;
  }

  /** The launch and result assembly of the contract launch, from the
      options it built. The launcher's domain list is the caller's `domains`
      array itself, so its first entry is read back after the launch has
      patched it. */
  function ContractRun(s: State, props: Props, freshFolder: string, w: World, sys: Sys): (r: Delivery<ContractLaunch>)
    requires ShapedOptions(props) && Truthy(Lookup(props, "contractBuildFilePath"))
    ensures var run := LaunchAsync(New(Obj(props), freshFolder), w, sys);
      && (r.outcome.Resolves? <==> run.outcome.Resolves?)
      && (r.outcome.Rejects? <==> run.outcome.Rejects?)
      && (r.outcome.Resolves? ==>
            && r.outcome.value.summary == Rest(run.outcome.value)
            && r.outcome.value.summary.domainSeed.Str?
            && ConstitutionIs(r.outcome.value.domainConfig, r.outcome.value.summary.domainSeed)
            && r.state.virtualMQNode == run.outcome.value.node)
      && (r.outcome.Rejects? ==> r.outcome.error == run.outcome.error)
  {
    var options := Obj(props);
    ContractLauncher(props, freshFolder);
    var (run, after) := LaunchNode(s, options, freshFolder, w, sys);
    DeliverContract(New(options, freshFolder), run, after, Lookup(props, "domains"))
  }

  /** The contract delivery settles as the launch did: on success with the
      launch summary, whose domain seed is a string, and a domain config
      whose constitution is that seed; on rejection with the launch's
      error. */
  predicate ContractRelayed(r: Delivery<ContractLaunch>, run: Run) {
    && (r.outcome.Resolves? <==> run.outcome.Resolves?)
    && (r.outcome.Resolves? ==>
          && r.outcome.value.summary == Rest(run.outcome.value)
          && r.outcome.value.summary.domainSeed.Str?
          && ConstitutionIs(r.outcome.value.domainConfig, r.outcome.value.summary.domainSeed))
    && (r.outcome.Rejects? <==> run.outcome.Rejects?)
    && (r.outcome.Rejects? ==> r.outcome.error == run.outcome.error)
  }

  /** Hands on how a contract launch settled, with the summary and the
      contract domain's config, read from the launch's domain list, as the
      value. */
  function DeliverContract(l: Launcher, run: Run, after: State, configured: Value): (r: Delivery<ContractLaunch>)
    requires WellFormedDomains(run.domains)
    requires Contract(l) && (run.outcome.Resolves? ==> WellLaunched(l, run.outcome.value))
    ensures r.state == after
    ensures ContractRelayed(r, run)
  {
    match run.outcome
    case Resolves(res) =>
      var domainConfig := ContractDomainConfig(configured, run.domains, res.domainSeed);
      Delivery(Resolves(ContractLaunch(Rest(res), domainConfig)), after)
    case Rejects(e) => Delivery(Rejects(e), after)
    case Pends => Delivery(Pends, after)
  }

  /** launchApiHubTestNodeWithContractAsync: an invalid build file path is
      refused before anything starts; otherwise the built options are
      launched and the contract domain's config comes back with its
      constitution set to the launch's domain seed. */
  function LaunchWithContract(s: State, contractBuildFilePath: Value, domain: Value, config: Value,
                              freshFolder: string, w: World, sys: Sys): (r: Delivery<ContractLaunch>)
    requires ContractArgsAcceptable(domain, config)
    ensures !(Truthy(contractBuildFilePath) && contractBuildFilePath.Str?) ==>
      r == Delivery(Rejects(Thrown("Missing or invalid contractBuildFilePath")), s)
    ensures Truthy(contractBuildFilePath) && contractBuildFilePath.Str? ==>
      r == ContractRun(s, ContractOptions(contractBuildFilePath, domain, config).value, freshFolder, w, sys)
  {
    match ContractOptions(contractBuildFilePath, domain, config)
    case Err(e) => Delivery(Rejects(e), s)
    case Ok(props) => ContractRun(s, props, freshFolder, w, sys)
  }
}
