/** ApiHubTestNodeLauncher: option completion at construction, and
    launchAsync, which allocates a port against the `maxTries` budget,
    writes the configuration, optionally builds the contract domain in a
    worker, starts the node, and restarts the whole pipeline when a step
    inside its `try` fails while budget remains.
 */
module Launcher {
  import opened Js
  import opened Io
  import opened LauncherUtils

  /** `defaultOptions` of the launcher. */
  const DefaultOptions: Props := [
    ("maxTries", Num(100)),
    ("rootFolder", Null),
    ("serverConfig", Obj([])),
    ("domains", Null),
    ("bdns", Null),
    ("validatorDID", Null),
    ("validators", Null),
    ("useWorker", Bool(false)),
    ("bricksLedgerConfig", Null),
    ("includeDefaultDomains", Bool(true)),
    ("contractBuildFilePath", Null)
  ]

  /** The number of availability probes made while the contract worker
      releases the port. */
  const PortReleaseChecks: int := 10

  lemma DefaultKeyMembership()
    ensures "port" !in Keys(DefaultOptions) && "storageFolder" !in Keys(DefaultOptions)
    ensures "maxTries" in Keys(DefaultOptions) && "domains" in Keys(DefaultOptions)
  {
    DefaultPairs();
    NotAKey(DefaultOptions, "port");
    NotAKey(DefaultOptions, "storageFolder");
    IsAKey(DefaultOptions, 0);
    IsAKey(DefaultOptions, 3);
  }

  /** The defaults' pairs, read without enumerating their keys. */
  lemma DefaultPairs()
    ensures forall i :: 0 <= i < |DefaultOptions| ==> DefaultOptions[i].0 != "port" && DefaultOptions[i].0 != "storageFolder"
    ensures |DefaultOptions| == 11 && DefaultOptions[0].0 == "maxTries" && DefaultOptions[3].0 == "domains"
  {
  }

  lemma DefaultFacts()
    ensures CoversDefaults(DefaultOptions)
  {
    DefaultKeyMembership();
    DefaultUnique();
    DefaultValues();
  }

  lemma DefaultUnique()
    ensures UniqueKeys(DefaultOptions)
  {}

  lemma DefaultValues()
    ensures Lookup(DefaultOptions, "maxTries") == Num(100)
    ensures Lookup(DefaultOptions, "domains") == Null
    ensures Lookup(DefaultOptions, "bdns") == Null
    ensures Lookup(DefaultOptions, "contractBuildFilePath") == Null
  {
    DefaultUnique();
    LookupAt(DefaultOptions, 0);
    LookupAt(DefaultOptions, 3);
    LookupAt(DefaultOptions, 4);
    LookupAt(DefaultOptions, 10);
  }

  // ---------------------------------------------------------------------
  // Ports and URLs
  // ---------------------------------------------------------------------

  /** Port values the launcher can print into its node URL. */
  predicate PortLike(v: Value) {
    v.Undefined? || v.Null? || v.Bool? || v.Num? || v.Str?
  }

  /** How a template literal prints the port. */
  function PortText(v: Value): string
    requires PortLike(v)
  {
    match v
    case Undefined => "undefined"
    case Null => "null"
    case Bool(b) => if b then "true" else "false"
    case Num(n) => IntToString(n)
    case Str(s) => s
  }

  /** The node URL, also used as the validator URL. */
  function NodeUrl(port: Value): string
    requires PortLike(port)
  {
    "http://localhost:" + PortText(port)
  }

  /** Where the allocation loop stopped: the port to use, the budget left
      and the clock after the last probe. */
  datatype Allocation = Allocation(port: Value, maxTries: int, time: nat)

  /** The `while (maxTries > 0)` loop: each round draws a candidate and
      probes it; a busy candidate costs one unit of budget. */
  function Search(candidate: Value, maxTries: int, w: World, t: nat): (a: Allocation)
    ensures maxTries <= 0 ==> a == Allocation(candidate, maxTries, t)
    ensures maxTries > 0 ==>
      && t < a.time <= t + maxTries
      && a.port == Num(w.randomPort(a.time - 1))
      && (forall u :: t <= u < a.time - 1 ==> !w.portFree(u))
      && (if w.portFree(a.time - 1) then a.maxTries == maxTries - (a.time - 1 - t)
          else a.maxTries == 0 && a.time == t + maxTries)
    decreases maxTries
  {
    if maxTries <= 0 then Allocation(candidate, maxTries, t)
    else if w.portFree(t) then Allocation(Num(w.randomPort(t)), maxTries, t + 1)
    else Search(Num(w.randomPort(t)), maxTries - 1, w, t + 1)
  }

  /** Port allocation at the head of launchAsync. A supplied (truthy) port
      skips the loop and costs nothing; otherwise the first free candidate
      is taken, and when the budget runs out the last candidate is used
      without raising. */
  function Allocate(port: Value, maxTries: int, w: World, t: nat): (a: Allocation)
    requires PortLike(port)
    ensures PortLike(a.port)
    ensures a.maxTries <= maxTries
    ensures Truthy(port) ==> a == Allocation(port, maxTries, t)
    ensures !Truthy(port) && maxTries <= 0 ==> a == Allocation(port, maxTries, t)
    ensures !Truthy(port) && maxTries > 0 ==>
      && t < a.time <= t + maxTries
      && a.port == Num(w.randomPort(a.time - 1))
      && (forall u :: t <= u < a.time - 1 ==> !w.portFree(u))
      && (if w.portFree(a.time - 1) then a.maxTries == maxTries - (a.time - 1 - t)
          else a.maxTries == 0 && a.time == t + maxTries)
  {
    if Truthy(port) then Allocation(port, maxTries, t) else Search(port, maxTries, w, t)
  }

  /** The wait for the contract worker to free the port: at most `retries`
      probes, stopping at the first free one; `freed` says whether one was. */
  function AwaitPortRelease(retries: int, w: World, t: nat): (r: (nat, bool))
    ensures t <= r.0 <= t + (if retries > 0 then retries else 0)
    ensures forall u :: t <= u < r.0 - (if r.1 then 1 else 0) ==> !w.portFree(u)
    ensures r.1 ==> r.0 > t && w.portFree(r.0 - 1)
    ensures !r.1 ==> r.0 == t + (if retries > 0 then retries else 0)
    decreases retries
  {
    if retries <= 0 then (t, false)
    else if w.portFree(t) then (t + 1, true)
    else AwaitPortRelease(retries - 1, w, t + 1)
  }

  // ---------------------------------------------------------------------
  // Construction
  // ---------------------------------------------------------------------

  /** A `bdns` option the launcher can store: falsy, or a truthy value
      storeDBNSAsync accepts. */
  predicate BdnsOptionShape(v: Value) {
    !Truthy(v) || BdnsShape(v)
  }

  /** Options the model covers: falsy, or an object whose `maxTries` is a
      number when given, whose `port` prints into a URL, and whose `domains`
      and `bdns` have the shapes above. */
  predicate AcceptableOptions(options: Value) {
    !Truthy(options) || (options.Obj? && ShapedOptions(options.props))
  }

  predicate ShapedOptions(ps: Props) {
    && UniqueKeys(ps)
    && (Nullish(Lookup(ps, "maxTries")) || Lookup(ps, "maxTries").Num?)
    && PortLike(Lookup(ps, "port"))
    && DomainsShape(Lookup(ps, "domains"))
    && BdnsOptionShape(Lookup(ps, "bdns"))
  }

  /** Writing an option the shape does not constrain keeps the shape. */
  lemma PutKeepsShape(ps: Props, k: string, v: Value)
    requires ShapedOptions(ps)
    requires k != "maxTries" && k != "port" && k != "domains" && k != "bdns"
    ensures ShapedOptions(Put(ps, k, v))
  {
    var r := Put(ps, k, v);
    assert Lookup(r, "maxTries") == Lookup(ps, "maxTries");
    assert Lookup(r, "port") == Lookup(ps, "port");
    assert Lookup(r, "domains") == Lookup(ps, "domains");
    assert Lookup(r, "bdns") == Lookup(ps, "bdns");
  }

  /** Writing a well-formed domain list keeps the shape. */
  lemma PutDomainsKeepsShape(ps: Props, v: Value)
    requires ShapedOptions(ps) && DomainsShape(v)
    ensures ShapedOptions(Put(ps, "domains", v))
  {
    var r := Put(ps, "domains", v);
    assert Lookup(r, "maxTries") == Lookup(ps, "maxTries");
    assert Lookup(r, "port") == Lookup(ps, "port");
    assert Lookup(r, "bdns") == Lookup(ps, "bdns");
  }

  /** What construction needs of the defaults: well-formed, with a numeric
      `maxTries` of 100, a null `domains` and `bdns`, and neither `port`
      nor `storageFolder`. */
  predicate CoversDefaults(defaults: Props) {
    && ShapedOptions(defaults)
    && "port" !in Keys(defaults) && "storageFolder" !in Keys(defaults)
    && "maxTries" in Keys(defaults) && Lookup(defaults, "maxTries") == Num(100)
    && "domains" in Keys(defaults) && Lookup(defaults, "domains") == Null
    && !Truthy(Lookup(defaults, "contractBuildFilePath"))
  }

  /** The launcher's closure state: the completed options and the
      variables destructured from them; `maxTries` and `domains` change
      between attempts. */
  datatype Launcher = Launcher(
    options: Props,
    maxTries: int,
    rootFolder: Value,
    storageFolder: Value,
    port: Value,
    serverConfig: Value,
    domains: seq<Value>)

  predicate Valid(l: Launcher) {
    && PortLike(l.port)
    && WellFormedDomains(l.domains)
    && BdnsOptionShape(Lookup(l.options, "bdns"))
  }

  /** The options object the constructor completes: a falsy argument is
      replaced by a copy of the defaults. */
  function Supplied(options: Value): Props
    requires AcceptableOptions(options)
  {
    if Truthy(options) then options.props else DefaultOptions
  }

  /** The constructor body over given defaults: getCompleteOptions, then
      the destructuring of the completed options. */
  function Construct(supplied: Props, defaults: Props, freshFolder: string): Launcher
    requires UniqueKeys(supplied) && UniqueKeys(defaults)
    requires DomainsShape(Filled(supplied, defaults, "domains"))
  {
    var completed := CompleteOptions(supplied, defaults, freshFolder);
    var maxTries := Lookup(completed, "maxTries");
    Launcher(
      completed,
      if maxTries.Num? then maxTries.n else 100,
      Lookup(completed, "rootFolder"),
      Lookup(completed, "storageFolder"),
      Lookup(completed, "port"),
      Lookup(completed, "serverConfig"),
      Lookup(completed, "domains").items)
  }

  /** The destructured variables are the completed options' values: a
      `== null` option takes its default, a falsy storage folder the fresh
      one, and the domain list gains the defaults when asked to. */
  lemma ConstructFields(supplied: Props, defaults: Props, freshFolder: string)
    requires UniqueKeys(supplied) && UniqueKeys(defaults)
    requires DomainsShape(Filled(supplied, defaults, "domains"))
    ensures var l := Construct(supplied, defaults, freshFolder);
      && (var given := Filled(supplied, defaults, "maxTries");
          l.maxTries == if given.Num? then given.n else 100)
      && l.port == Filled(supplied, defaults, "port")
      && l.rootFolder == Filled(supplied, defaults, "rootFolder")
      && (var folder := Filled(supplied, defaults, "storageFolder");
          l.storageFolder == if Truthy(folder) then folder else Str(freshFolder))
  {
    ConstructLookup(supplied, defaults, freshFolder, "maxTries");
    ConstructLookup(supplied, defaults, freshFolder, "port");
    ConstructLookup(supplied, defaults, freshFolder, "rootFolder");
  }

  lemma ConstructLookup(supplied: Props, defaults: Props, freshFolder: string, k: string)
    requires UniqueKeys(supplied) && UniqueKeys(defaults)
    requires DomainsShape(Filled(supplied, defaults, "domains"))
    requires k != "storageFolder" && k != "domains"
    ensures Lookup(Construct(supplied, defaults, freshFolder).options, k) == Filled(supplied, defaults, k)
  {
  }

  lemma ConstructDomains(supplied: Props, defaults: Props, freshFolder: string)
    requires UniqueKeys(supplied) && UniqueKeys(defaults)
    requires DomainsShape(Filled(supplied, defaults, "domains"))
    ensures var l := Construct(supplied, defaults, freshFolder);
      var base := DomainItems(Filled(supplied, defaults, "domains"));
      l.domains == if Truthy(Filled(supplied, defaults, "includeDefaultDomains"))
                   then MergeDefaultDomains(base) else base
    ensures forall k :: k != "storageFolder" && k != "domains" ==>
      Lookup(Construct(supplied, defaults, freshFolder).options, k) == Filled(supplied, defaults, k)
  {
  }

  /** Construction from acceptable options over the defaults yields a
      launcher the rest of the model accepts; the budget is the supplied
      number, or 100. */
  lemma ConstructValid(supplied: Props, defaults: Props, freshFolder: string)
    requires ShapedOptions(supplied) && CoversDefaults(defaults)
    ensures DomainsShape(Filled(supplied, defaults, "domains"))
    ensures Valid(Construct(supplied, defaults, freshFolder))
    ensures Construct(supplied, defaults, freshFolder).port == Lookup(supplied, "port")
    ensures var given := Lookup(supplied, "maxTries");
      Construct(supplied, defaults, freshFolder).maxTries == if given.Num? then given.n else 100
    ensures Contract(Construct(supplied, defaults, freshFolder)) <==> Truthy(Lookup(supplied, "contractBuildFilePath"))
  {
    var bdns := Filled(supplied, defaults, "bdns");
    var maxTries := Filled(supplied, defaults, "maxTries");
    assert Filled(supplied, defaults, "port") == Lookup(supplied, "port");
    assert BdnsOptionShape(bdns);
    assert DomainsShape(Filled(supplied, defaults, "domains"));
    assert maxTries.Num? && (Lookup(supplied, "maxTries").Num? ==> maxTries == Lookup(supplied, "maxTries"));
    assert !Lookup(supplied, "maxTries").Num? ==> maxTries == Num(100);
    ConstructFields(supplied, defaults, freshFolder);
    ConstructDomains(supplied, defaults, freshFolder);
    ConstructLookup(supplied, defaults, freshFolder, "bdns");
    ConstructLookup(supplied, defaults, freshFolder, "contractBuildFilePath");
    var l := Construct(supplied, defaults, freshFolder);
    var path := Filled(supplied, defaults, "contractBuildFilePath");
    FilledTruthy(supplied, defaults, "contractBuildFilePath");
    assert Contract(l) <==> Truthy(path);
    var base := DomainItems(Filled(supplied, defaults, "domains"));
    assert WellFormedDomains(base);
    assert WellFormedDomains(l.domains);
    assert PortLike(l.port);
  }

  /** Filling from a falsy default keeps whether a value is truthy. */
  lemma FilledTruthy(supplied: Props, defaults: Props, k: string)
    requires !Truthy(Lookup(defaults, k))
    ensures Truthy(Filled(supplied, defaults, k)) <==> Truthy(Lookup(supplied, k))
  {
  }

  /** The ApiHubTestNodeLauncher constructor. `freshFolder` is what
      mkdtempSync returns when no storage folder is given. */
  function New(options: Value, freshFolder: string): (l: Launcher)
    requires AcceptableOptions(options)
    ensures Valid(l)
    ensures var given := Lookup(Supplied(options), "maxTries");
      l.maxTries == if given.Num? then given.n else 100
    ensures l.port == Lookup(Supplied(options), "port")
    ensures Contract(l) <==> Truthy(Lookup(Supplied(options), "contractBuildFilePath"))
  {
    var supplied := Supplied(options);
    DefaultFacts();
    assert ShapedOptions(supplied);
    ConstructValid(supplied, DefaultOptions, freshFolder);
    Construct(supplied, DefaultOptions, freshFolder)
  }

  // ---------------------------------------------------------------------
  // One attempt
  // ---------------------------------------------------------------------

  /** Whether the launch builds a contract domain (`!!contractBuildFilePath`). */
  predicate Contract(l: Launcher) {
    Truthy(Lookup(l.options, "contractBuildFilePath"))
  }

  /** The object launchAsync resolves with. */
  datatype LaunchResult = LaunchResult(
    port: Value,
    node: Value,
    rootFolder: Value,
    storageFolder: Value,
    domainSeed: Value,
    validatorDID: Value,
    validatorURL: string,
    validatorDIDInstance: Value)

  /** Errors raised before the `try`: environment set-up, config and BDNS
      writes, validator identity creation and the BDNS host update. */
  predicate PreTryError(e: Error) {
    || e.TypeError?
    || (e.Rejected? && e.source in {EnvSetup, MakeDir, WriteFile, CreateIdentity, SetBdnsHosts})
  }

  /** Errors raised inside the `try`: the workers, the patched config
      writes, the apihub start and the DID resolution. */
  predicate TryError(e: Error) {
    e.Rejected? && e.source in {ContractWorker, WriteFile, ApiHubWorker, ApiHubInstance, ResolveDid}
  }

  /** The collaborator never fails at any tick. */
  ghost predicate Reliable(w: World, c: Collaborator) {
    forall t :: !w.fails(c, t)
  }

  /** No collaborator ever fails or hangs. */
  ghost predicate Flawless(w: World) {
    forall c, t :: !w.fails(c, t) && !w.hangs(c, t)
  }

  /** No step before the `try` can fail on its own. */
  ghost predicate PreTryReliable(w: World) {
    && Reliable(w, EnvSetup) && Reliable(w, MakeDir) && Reliable(w, WriteFile)
    && Reliable(w, CreateIdentity) && Reliable(w, SetBdnsHosts)
  }

  /** The configuration launchAsync can write: a string root folder and a
      `bdns` option that is absent, an object or a string. */
  predicate Writable(l: Launcher) {
    var bdns := Lookup(l.options, "bdns");
    l.rootFolder.Str? && (!Truthy(bdns) || bdns.Obj? || bdns.Str?)
  }

  /** What the steps before the `try` hand to the rest of the attempt. */
  datatype Prepared = Prepared(port: Value, nodeUrl: string, validatorDID: Value, bdns: Value)

  datatype Stage = Stage(out: Result<Prepared>, maxTries: int, sys: Sys)

  /** getValidatorDIDAsync: the configured DID, else a freshly created one. */
  function ValidatorDID(w: World, sys: Sys, options: Props): (r: Step<Value>)
    ensures Truthy(Lookup(options, "validatorDID")) ==> r == Step(Ok(Lookup(options, "validatorDID")), sys)
    ensures !Truthy(Lookup(options, "validatorDID")) ==>
      && r.sys == Sys(sys.files, sys.time + 1)
      && (r.out.Ok? <==> !w.fails(CreateIdentity, sys.time))
      && (r.out.Ok? ==> r.out.value == Str(w.text(CreateIdentity, sys.time)))
      && (r.out.Err? ==> r.out.error == Rejected(CreateIdentity, sys.time))
  {
    var configured := Lookup(options, "validatorDID");
    if Truthy(configured) then Step(Ok(configured), sys)
    else
      var created := Call(w, CreateIdentity, sys);
      if created.out.Err? then Step(Err(created.out.error), created.sys)
      else Step(Ok(Str(w.text(CreateIdentity, sys.time))), created.sys)
  }

  /** Under the config folder of the root folder, `apihub.json` holds the
      server config and `domains/<name>.json` each domain's config. */
  predicate ServerConfigsOnDisk(files: Files, l: Launcher)
    requires l.rootFolder.Str? && WellFormedDomains(l.domains)
  {
    var folder := ConfigFolderPath(l.rootFolder).value;
    && FilePath(folder, "apihub.json") in files
    && files[FilePath(folder, "apihub.json")] == Json(l.serverConfig)
    && DomainConfigsOnDisk(files, folder, l.domains)
  }

  /** Everything written before the `try`: the server and domain configs,
      and the BDNS table. */
  predicate ConfigOnDisk(files: Files, l: Launcher, bdns: Value)
    requires WellFormedDomains(l.domains)
  {
    && l.rootFolder.Str?
    && ServerConfigsOnDisk(files, l)
    && BdnsOnDisk(files, ConfigFolderPath(l.rootFolder).value, bdns)
  }

  /** The BDNS table of a launch: a configured `bdns` as given, otherwise an
      object with one key per domain name and no other. */
  ghost predicate BdnsCovers(l: Launcher, bdns: Value)
    requires WellFormedDomains(l.domains)
  {
    if Truthy(Lookup(l.options, "bdns")) then bdns == Lookup(l.options, "bdns")
    else bdns.Obj? && forall k :: k in Keys(bdns.props) <==> k in NameSet(l.domains)
  }

  /** The configuration writes of launchAsync: environment variables,
      `apihub.json` and one config file per domain. */
  function Configure(l: Launcher, w: World, sys: Sys): (r: Step<()>)
    requires Valid(l)
    ensures r.out.Ok? ==> l.rootFolder.Str? && ServerConfigsOnDisk(r.sys.files, l)
    ensures r.out.Err? ==> PreTryError(r.out.error)
    ensures PreTryReliable(w) && l.rootFolder.Str? ==> r.out.Ok?
  {
    if !l.rootFolder.Str? then Step(Err(TypeError("The \"path\" argument must be of type string")), sys)
    else
      var env := Call(w, EnvSetup, sys);
      if env.out.Err? then Step(Err(env.out.error), env.sys)
      else
        var server := StoreServerConfig(w, env.sys, l.rootFolder, l.serverConfig);
        if server.out.Err? then server
        else
          assert PreTryReliable(w) ==> WritesSucceed(w, server.sys.time, |l.domains|);
          var stored := StoreServerDomainConfigs(w, server.sys, l.rootFolder, l.domains);
          if stored.out.Err? then stored
          else
            ServerConfigSurvives(server.sys.files, stored.sys.files, ConfigFolderPath(l.rootFolder).value);
            stored
  }

  /** The validator DID, the BDNS table written to disk, and, for a contract
      launch, the in-memory BDNS update. */
  function Register(l: Launcher, nodeUrl: string, w: World, sys: Sys): (r: Step<(Value, Value)>)
    requires Valid(l)
    ensures r.out.Err? ==> PreTryError(r.out.error)
    ensures r.out.Ok? ==>
      var did := r.out.value.0;
      && (!Contract(l) ==> did == Undefined)
      && (Contract(l) && Truthy(Lookup(l.options, "validatorDID")) ==> did == Lookup(l.options, "validatorDID"))
      && (Contract(l) && !Truthy(Lookup(l.options, "validatorDID")) ==> did.Str?)
    ensures r.out.Ok? ==> l.rootFolder.Str?
    ensures r.out.Ok? ==> BdnsCovers(l, r.out.value.1)
    ensures r.out.Ok? ==> var folder := ConfigFolderPath(l.rootFolder).value;
      && BdnsOnDisk(r.sys.files, folder, r.out.value.1)
      && SameOutside(sys.files, r.sys.files, folder + "/bdns", Some(FilePath(folder, "bdns.hosts")))
    ensures PreTryReliable(w) && Writable(l) ==> r.out.Ok?
  {
    var contract := Contract(l);
    var did := if contract then ValidatorDID(w, sys, l.options) else Step(Ok(Undefined), sys);
    if did.out.Err? then Step(Err(did.out.error), did.sys)
    else
      var validators := if contract then Validators(l.options, did.out.value, nodeUrl) else Arr([]);
      var published := Publish(l, nodeUrl, validators, w, did.sys);
      if published.out.Err? then Step(Err(published.out.error), published.sys)
      else Step(Ok((did.out.value, published.out.value)), published.sys)
  }

  /** The BDNS half of the registration: the table is derived from the
      domains, written to disk and, for a contract launch, handed to the
      in-memory BDNS. */
  function Publish(l: Launcher, nodeUrl: string, validators: Value, w: World, sys: Sys): (r: Step<Value>)
    requires Valid(l)
    ensures r.out.Err? ==> PreTryError(r.out.error)
    ensures r.out.Ok? ==> l.rootFolder.Str? && BdnsCovers(l, r.out.value)
    ensures r.out.Ok? ==> var folder := ConfigFolderPath(l.rootFolder).value;
      && BdnsOnDisk(r.sys.files, folder, r.out.value)
      && SameOutside(sys.files, r.sys.files, folder + "/bdns", Some(FilePath(folder, "bdns.hosts")))
    ensures PreTryReliable(w) && Writable(l) ==> r.out.Ok?
  {
    var bdns := BdnsEntries(l.options, l.domains, nodeUrl, validators);
    var stored := StoreBdns(w, sys, l.rootFolder, bdns);
    assert PreTryReliable(w) ==>
      WritesSucceed(w, sys.time + 3, |BdnsProjection(bdns)|);
    if stored.out.Err? then Step(Err(stored.out.error), stored.sys)
    else
      var hosts := if Contract(l) then Call(w, SetBdnsHosts, stored.sys) else Step(Ok(Undefined), stored.sys);
      if hosts.out.Err? then Step(Err(hosts.out.error), hosts.sys)
      else Step(Ok(bdns), hosts.sys)
  }

  /** launchAsync up to its `try`: allocation, then the configuration and
      registration steps. Any failure here propagates unretried. */
  function Prepare(l: Launcher, w: World, sys: Sys): (r: Stage)
    requires Valid(l)
    ensures r.maxTries == Allocate(l.port, l.maxTries, w, sys.time).maxTries
    ensures r.out.Err? ==> PreTryError(r.out.error)
    ensures r.out.Ok? ==>
      && l.rootFolder.Str?
      && r.out.value.port == Allocate(l.port, l.maxTries, w, sys.time).port
      && PortLike(r.out.value.port)
      && r.out.value.nodeUrl == NodeUrl(r.out.value.port)
      && (!Contract(l) ==> r.out.value.validatorDID == Undefined)
      && (Contract(l) && Truthy(Lookup(l.options, "validatorDID")) ==>
            r.out.value.validatorDID == Lookup(l.options, "validatorDID"))
      && (Contract(l) && !Truthy(Lookup(l.options, "validatorDID")) ==> r.out.value.validatorDID.Str?)
    ensures r.out.Ok? ==> ConfigOnDisk(r.sys.files, l, r.out.value.bdns) && BdnsCovers(l, r.out.value.bdns)
    ensures PreTryReliable(w) && Writable(l) ==> r.out.Ok?
  {
    var a := Allocate(l.port, l.maxTries, w, sys.time);
    var nodeUrl := NodeUrl(a.port);
    var configured := Configure(l, w, Sys(sys.files, a.time));
    if configured.out.Err? then Stage(Err(configured.out.error), a.maxTries, configured.sys)
    else
      var registered := Register(l, nodeUrl, w, configured.sys);
      if registered.out.Err? then Stage(Err(registered.out.error), a.maxTries, registered.sys)
      else
        var (did, bdns) := registered.out.value;
        ConfigsSurviveBdns(configured.sys.files, registered.sys.files, ConfigFolderPath(l.rootFolder).value, l.domains);
        Stage(Ok(Prepared(a.port, nodeUrl, did, bdns)), a.maxTries, registered.sys)
  }

  /** Once the steps before the `try` succeed, the config folder of the
      root holds `apihub.json` and a config file for every domain name; and
      unless a `bdns` option was given, `bdns.hosts` holds an object keyed
      by exactly the domain names, each of which also has its own BDNS
      file. */
  lemma PreparedFilesCoverDomains(l: Launcher, w: World, sys: Sys)
    requires Valid(l) && Prepare(l, w, sys).out.Ok?
    ensures var r := Prepare(l, w, sys);
      var folder := ConfigFolderPath(l.rootFolder).value;
      && FilePath(folder, "apihub.json") in r.sys.files
      && (forall n :: n in NameSet(l.domains) ==> JsonFile(folder + "/domains", n) in r.sys.files)
      && (!Truthy(Lookup(l.options, "bdns")) ==>
            && FilePath(folder, "bdns.hosts") in r.sys.files
            && r.sys.files[FilePath(folder, "bdns.hosts")].Json?
            && r.sys.files[FilePath(folder, "bdns.hosts")].value.Obj?
            && (forall k :: k in Keys(r.sys.files[FilePath(folder, "bdns.hosts")].value.props) <==> k in NameSet(l.domains))
            && (forall n :: n in NameSet(l.domains) ==> JsonFile(folder + "/bdns", n) in r.sys.files))
  {
    var r := Prepare(l, w, sys);
    var folder := ConfigFolderPath(l.rootFolder).value;
    assert ConfigOnDisk(r.sys.files, l, r.out.value.bdns);
    assert DomainConfigsOnDisk(r.sys.files, folder, l.domains);
    forall n | n in NameSet(l.domains) ensures JsonFile(folder + "/domains", n) in r.sys.files {
      var i := LastOccurrence(l.domains, n);
    }
  }

  /** How the `try` region ended. */
  datatype Boot = Boot(end: AttemptEnd, domains: seq<Value>, sys: Sys)

  /** Where one attempt ended: resolved, failed before the `try`
      (propagates), failed inside it (caught), or waiting forever on a
      collaborator that never settles. */
  datatype AttemptEnd =
    | Launched(result: LaunchResult)
    | Fatal(error: Error)
    | Failed(error: Error)
    | Stuck

  /** A collaborator start that may reject or never settle. */
  function Start(w: World, c: Collaborator, sys: Sys): (r: (Option<Result<Value>>, Sys))
    ensures r.1 == Sys(sys.files, sys.time + 1)
    ensures r.0.None? <==> w.hangs(c, sys.time)
    ensures r.0.Some? ==> r.0.value == (if w.fails(c, sys.time) then Err(Rejected(c, sys.time)) else Ok(w.reply(c, sys.time)))
  {
    if w.hangs(c, sys.time) then (None, Sys(sys.files, sys.time + 1))
    else (Some(Call(w, c, sys).out), Sys(sys.files, sys.time + 1))
  }

  /** The tail of the `try`: start the node (in a worker or in process),
      resolve the validator DID if any, assemble the result. */
  function StartNode(l: Launcher, p: Prepared, domainSeed: Value, w: World, sys: Sys): (r: (AttemptEnd, Sys))
    requires PortLike(p.port)
    ensures r.0.Launched? ==>
      var res := r.0.result;
      && res.port == p.port && res.validatorURL == p.nodeUrl
      && res.rootFolder == l.rootFolder && res.storageFolder == l.storageFolder
      && res.domainSeed == domainSeed && res.validatorDID == p.validatorDID
      && (!Truthy(p.validatorDID) ==> res.validatorDIDInstance == Undefined)
    ensures r.0.Failed? ==> TryError(r.0.error)
    ensures !r.0.Fatal?
    ensures r.1.files == sys.files
    ensures var c := if Truthy(Lookup(l.options, "useWorker")) then ApiHubWorker else ApiHubInstance;
      && (w.hangs(c, sys.time) ==> r.0 == Stuck)
      && (!w.hangs(c, sys.time) && w.fails(c, sys.time) ==> r.0 == Failed(Rejected(c, sys.time)))
      && (!w.hangs(c, sys.time) && !w.fails(c, sys.time) && !p.validatorDID.Str? ==> r.0.Launched?)
      && (!w.hangs(c, sys.time) && !w.fails(c, sys.time) && !w.fails(ResolveDid, sys.time + 1) ==> r.0.Launched?)
  {
    var kind := if Truthy(Lookup(l.options, "useWorker")) then ApiHubWorker else ApiHubInstance;
    var (started, s1) := Start(w, kind, sys);
    if started.None? then (Stuck, s1)
    else if started.value.Err? then (Failed(started.value.error), s1)
    else
      var node := started.value.value;
      var resolved :=
        if !Truthy(p.validatorDID) then Step(Ok(Undefined), s1)
        else if p.validatorDID.Str? then Call(w, ResolveDid, s1)
        else Step(Ok(p.validatorDID), s1);
      if resolved.out.Err? then (Failed(resolved.out.error), resolved.sys)
      else
        (Launched(LaunchResult(p.port, node, l.rootFolder, l.storageFolder, domainSeed,
                               p.validatorDID, p.nodeUrl, resolved.out.value)), resolved.sys)
  }

  /** The `try` region of launchAsync. For a contract launch the worker
      builds the contract and reports the domain seed; every domain config
      is then patched with it (object entries in place) and rewritten, and
      the port is probed at most ten times before the node starts anyway. */
  function RunTry(l: Launcher, p: Prepared, w: World, sys: Sys): (r: Boot)
    requires Valid(l) && l.rootFolder.Str? && PortLike(p.port)
    ensures WellFormedDomains(r.domains)
    ensures NameSet(r.domains) == NameSet(l.domains)
    ensures !r.end.Fatal?
    ensures r.end.Failed? ==> TryError(r.end.error)
    ensures r.end.Launched? ==>
      var res := r.end.result;
      && res.port == p.port && res.validatorURL == p.nodeUrl
      && res.rootFolder == l.rootFolder && res.storageFolder == l.storageFolder
      && res.validatorDID == p.validatorDID
      && (Contract(l) ==> res.domainSeed.Str?)
      && (!Contract(l) ==> res.domainSeed == Undefined)
      && (!Truthy(p.validatorDID) ==> res.validatorDIDInstance == Undefined)
    ensures !Contract(l) ==> r.domains == l.domains && r.sys.files == sys.files
    ensures Contract(l) ==> var seed := Str(w.text(ContractWorker, sys.time));
      && (w.hangs(ContractWorker, sys.time) ==> r.end == Stuck && r.domains == l.domains)
      && (!w.hangs(ContractWorker, sys.time) && w.fails(ContractWorker, sys.time) ==>
            r.end == Failed(Rejected(ContractWorker, sys.time)) && r.domains == l.domains)
      && (!w.hangs(ContractWorker, sys.time) && !w.fails(ContractWorker, sys.time) ==>
            r.domains == PatchDomains(l.domains, seed).1)
      && (r.end.Launched? ==>
            && r.end.result.domainSeed == seed
            && DomainConfigsOnDisk(r.sys.files, ConfigFolderPath(l.rootFolder).value, PatchDomains(l.domains, seed).0))
    ensures !Contract(l) && !Truthy(Lookup(l.options, "useWorker")) && !p.validatorDID.Str? ==>
      && (w.hangs(ApiHubInstance, sys.time) ==> r.end == Stuck)
      && (!w.hangs(ApiHubInstance, sys.time) && w.fails(ApiHubInstance, sys.time) ==>
            r.end == Failed(Rejected(ApiHubInstance, sys.time)))
      && (!w.hangs(ApiHubInstance, sys.time) && !w.fails(ApiHubInstance, sys.time) ==> r.end.Launched?)
    ensures Flawless(w) ==> r.end.Launched?
  {
    if !Contract(l) then
      var (end, s) := StartNode(l, p, Undefined, w, sys);
      Boot(end, l.domains, s)
    else
      var (worker, s1) := Start(w, ContractWorker, sys);
      if worker.None? then Boot(Stuck, l.domains, s1)
      else if worker.value.Err? then Boot(Failed(worker.value.error), l.domains, s1)
      else
        var seed := Str(w.text(ContractWorker, sys.time));
        var (written, after) := PatchDomains(l.domains, seed);
        PatchKeepsNames(l.domains, seed);
        var stored := StoreServerDomainConfigs(w, s1, l.rootFolder, written);
        if stored.out.Err? then
          Boot(Failed(stored.out.error), after, stored.sys)
        else
          var (time, _) := AwaitPortRelease(PortReleaseChecks, w, stored.sys.time);
          var (end, s) := StartNode(l, p, seed, w, Sys(stored.sys.files, time));
          Boot(end, after, s)
  }

  /** The file `<name>.json` in `dir` holds a config whose constitution is
      `seed`. */
  predicate SeededConfigFile(files: Files, dir: string, name: string, seed: Value) {
    var path := JsonFile(dir, name);
    path in files && files[path].Json? && files[path].value.Obj? && ConstitutionIs(files[path].value.props, seed)
  }

  /** After a contract launch resolves, every domain's config file holds a
      config whose constitution is the seed the launch resolves with. */
  lemma LaunchedConfigsCarrySeed(l: Launcher, p: Prepared, w: World, sys: Sys)
    requires Valid(l) && l.rootFolder.Str? && PortLike(p.port) && Contract(l)
    requires RunTry(l, p, w, sys).end.Launched?
    ensures var r := RunTry(l, p, w, sys);
      forall n :: n in NameSet(l.domains) ==>
        SeededConfigFile(r.sys.files, ConfigFolderPath(l.rootFolder).value + "/domains", n, r.end.result.domainSeed)
  {
    var r := RunTry(l, p, w, sys);
    var seed := Str(w.text(ContractWorker, sys.time));
    var written := PatchDomains(l.domains, seed).0;
    var folder := ConfigFolderPath(l.rootFolder).value;
    assert DomainConfigsOnDisk(r.sys.files, folder, written);
    forall n | n in NameSet(l.domains)
      ensures SeededConfigFile(r.sys.files, folder + "/domains", n, seed)
    {
      var i := LastOccurrence(l.domains, n);
      assert LastOfName(written, i);
      assert ConfigOf(written[i]) == PatchConfig(ConfigOf(l.domains[i]), seed);
    }
  }

  lemma PatchKeepsNames(ds: seq<Value>, seed: Value)
    requires WellFormedDomains(ds)
    ensures NameSet(PatchDomains(ds, seed).1) == NameSet(ds)
  {
    SameNames(PatchDomains(ds, seed).1, ds);
  }

  /** One pass through launchAsync, without the retry. */
  datatype Attempt = Attempt(end: AttemptEnd, maxTries: int, domains: seq<Value>, sys: Sys)

  /** The properties every resolved result has. */
  predicate WellLaunched(l: Launcher, res: LaunchResult) {
    && PortLike(res.port)
    && res.validatorURL == NodeUrl(res.port)
    && (Truthy(l.port) ==> res.port == l.port)
    && res.rootFolder == l.rootFolder
    && res.storageFolder == l.storageFolder
    && (!Contract(l) ==>
          res.domainSeed == Undefined && res.validatorDID == Undefined && res.validatorDIDInstance == Undefined)
    && (Contract(l) ==> res.domainSeed.Str?)
    && (Contract(l) && Truthy(Lookup(l.options, "validatorDID")) ==> res.validatorDID == Lookup(l.options, "validatorDID"))
    && (Contract(l) && !Truthy(Lookup(l.options, "validatorDID")) ==> res.validatorDID.Str?)
  }

  function RunAttempt(l: Launcher, w: World, sys: Sys): (a: Attempt)
    requires Valid(l)
    ensures a.maxTries == Allocate(l.port, l.maxTries, w, sys.time).maxTries
    ensures a.maxTries <= l.maxTries
    ensures WellFormedDomains(a.domains) && NameSet(a.domains) == NameSet(l.domains)
    ensures a.end.Fatal? <==> Prepare(l, w, sys).out.Err?
    ensures a.end.Fatal? ==> a.end.error == Prepare(l, w, sys).out.error && PreTryError(a.end.error)
    ensures a.end.Failed? ==> TryError(a.end.error)
    ensures a.end.Launched? ==> WellLaunched(l, a.end.result)
    ensures a.end.Launched? ==> a.end.result.port == Allocate(l.port, l.maxTries, w, sys.time).port
    ensures PreTryReliable(w) && Writable(l) ==> !a.end.Fatal?
  {
    var stage := Prepare(l, w, sys);
    if stage.out.Err? then Attempt(Fatal(stage.out.error), stage.maxTries, l.domains, stage.sys)
    else
      var boot := RunTry(l, stage.out.value, w, stage.sys);
      Attempt(boot.end, stage.maxTries, boot.domains, boot.sys)
  }

  // ---------------------------------------------------------------------
  // The retrying launch
  // ---------------------------------------------------------------------

  /** A retry keeps the options, the supplied port and the folders. */
  lemma WellLaunchedAcrossRetries(l: Launcher, next: Launcher)
    requires next.options == l.options && next.port == l.port
    requires next.rootFolder == l.rootFolder && next.storageFolder == l.storageFolder
    ensures forall res :: WellLaunched(next, res) ==> WellLaunched(l, res)
  {}

  /** A whole launch: how it settles, how many attempts it made, the errors
      that made it start over, how the last attempt ended, and the state it
      leaves behind. */
  datatype Run = Run(
    outcome: Settled<LaunchResult>,
    attempts: nat,
    retried: seq<Error>,
    last: AttemptEnd,
    maxTries: int,
    domains: seq<Value>,
    sys: Sys)

  /** The most attempts a launch with this budget can make. */
  function AttemptLimit(maxTries: int): nat {
    if maxTries > 1 then maxTries else 1
  }

  /** launchAsync. A failure inside the `try` spends one unit of the shared
      budget; at or below zero it is rethrown, otherwise the whole pipeline
      restarts. A failure before the `try` propagates at once. */
  function LaunchAsync(l: Launcher, w: World, sys: Sys): (r: Run)
    requires Valid(l)
    ensures 1 <= r.attempts <= AttemptLimit(l.maxTries)
    ensures r.outcome.Resolves? <==> r.last.Launched?
    ensures r.outcome.Resolves? ==> r.outcome.value == r.last.result && WellLaunched(l, r.outcome.value)
    ensures r.outcome.Pends? <==> r.last.Stuck?
    ensures r.outcome.Rejects? <==> r.last.Fatal? || r.last.Failed?
    ensures r.outcome.Rejects? ==> r.outcome.error == r.last.error
    ensures r.last.Fatal? ==> PreTryError(r.last.error)
    ensures r.last.Failed? ==> TryError(r.last.error) && r.maxTries <= 0
    ensures WellFormedDomains(r.domains)
    ensures r.attempts > 1 <==> RunAttempt(l, w, sys).end.Failed? && RunAttempt(l, w, sys).maxTries > 1
    ensures r.attempts == 1 ==> r.last == RunAttempt(l, w, sys).end
    ensures |r.retried| == r.attempts - 1
    ensures r.attempts > 1 ==> r.retried[0] == RunAttempt(l, w, sys).end.error
    ensures forall e :: e in r.retried ==> TryError(e)
    decreases l.maxTries
  {
    var a := RunAttempt(l, w, sys);
    if a.end.Failed? && a.maxTries - 1 > 0 then
      var next := l.(maxTries := a.maxTries - 1, domains := a.domains);
      var rest := LaunchAsync(next, w, a.sys);
      WellLaunchedAcrossRetries(l, next);
      rest.(attempts := rest.attempts + 1, retried := [a.end.error] + rest.retried)
    else Final(a)
  }

  /** A failure before the `try` is rethrown by the first attempt: nothing
      is retried and the launch rejects with that very error. */
  lemma PreTryFailureNotRetried(l: Launcher, w: World, sys: Sys)
    requires Valid(l) && Prepare(l, w, sys).out.Err?
    ensures LaunchAsync(l, w, sys).attempts == 1
    ensures LaunchAsync(l, w, sys).outcome == Rejects(Prepare(l, w, sys).out.error)
  {
  }

  /** Each retry spends at least one unit of the budget, and a launch that
      rethrows a failure from inside the `try` has spent one more. */
  lemma {:induction false} RetrySpendsBudget(l: Launcher, w: World, sys: Sys)
    requires Valid(l)
    ensures var r := LaunchAsync(l, w, sys);
      r.maxTries <= l.maxTries - (r.attempts - 1) - (if r.last.Failed? then 1 else 0)
    decreases l.maxTries
  {
    var a := RunAttempt(l, w, sys);
    if a.end.Failed? && a.maxTries - 1 > 0 {
      var next := l.(maxTries := a.maxTries - 1, domains := a.domains);
      RetrySpendsBudget(next, w, a.sys);
    }
  }

  /** The restart of index.js's `catch`: after a failure inside the `try`
      that leaves budget above one, the launch is exactly a fresh launch
      with one unit less, on the domains the failed attempt left, after
      that attempt's effects; the failed attempt is one more attempt and
      the first retried error. */
  lemma RetryRestarts(l: Launcher, w: World, sys: Sys)
    requires Valid(l)
    requires RunAttempt(l, w, sys).end.Failed? && RunAttempt(l, w, sys).maxTries > 1
    ensures var a := RunAttempt(l, w, sys);
      var next := l.(maxTries := a.maxTries - 1, domains := a.domains);
      && Valid(next)
      && var r := LaunchAsync(l, w, sys);
         var rest := LaunchAsync(next, w, a.sys);
         && r.outcome == rest.outcome && r.last == rest.last && r.maxTries == rest.maxTries
         && r.attempts == rest.attempts + 1 && r.retried == [a.end.error] + rest.retried
         && r.domains == rest.domains && r.sys == rest.sys
  {
  }

  /** Every other first attempt ends the launch: it settles as that attempt
      ended, with one unit of budget spent on a failure inside the `try`. */
  lemma NoRetryEndsLaunch(l: Launcher, w: World, sys: Sys)
    requires Valid(l)
    requires !(RunAttempt(l, w, sys).end.Failed? && RunAttempt(l, w, sys).maxTries > 1)
    ensures var a := RunAttempt(l, w, sys);
      var r := LaunchAsync(l, w, sys);
      && r.attempts == 1 && r.retried == [] && r.last == a.end
      && r.maxTries == (if a.end.Failed? then a.maxTries - 1 else a.maxTries)
      && (a.end.Launched? ==> r.outcome == Resolves(a.end.result))
      && (a.end.Fatal? || a.end.Failed? ==> r.outcome == Rejects(a.end.error))
      && (a.end.Stuck? ==> r.outcome == Pends)
  {
  }

  /** With a supplied port no budget goes to allocation, so the budget left
      is exactly the start budget minus one unit per failure inside the
      `try`, and a launch that rethrows such a failure has used up every
      attempt the budget allows. */
  lemma {:induction false} FixedPortBudgetExact(l: Launcher, w: World, sys: Sys)
    requires Valid(l) && Truthy(l.port)
    ensures var r := LaunchAsync(l, w, sys);
      r.maxTries == l.maxTries - (r.attempts - 1) - (if r.last.Failed? then 1 else 0)
    ensures var r := LaunchAsync(l, w, sys);
      r.last.Failed? ==> r.attempts == AttemptLimit(l.maxTries)
    decreases l.maxTries
  {
    var a := RunAttempt(l, w, sys);
    assert a.maxTries == l.maxTries by {
      assert Allocate(l.port, l.maxTries, w, sys.time).maxTries == l.maxTries;
    }
    if a.end.Failed? && a.maxTries > 1 {
      RetryRestarts(l, w, sys);
      FixedPortBudgetExact(l.(maxTries := a.maxTries - 1, domains := a.domains), w, a.sys);
    } else {
      NoRetryEndsLaunch(l, w, sys);
    }
  }

  /** A launch that ends with attempt `a`: it settles as the attempt ended,
      and a failure inside the `try` has spent one more unit of budget. */
  function Final(a: Attempt): (r: Run)
    ensures r.attempts == 1 && r.retried == [] && r.last == a.end && r.domains == a.domains
    ensures r.maxTries == if a.end.Failed? then a.maxTries - 1 else a.maxTries
    ensures r.outcome.Resolves? <==> a.end.Launched?
    ensures r.outcome.Resolves? ==> r.outcome.value == a.end.result
    ensures r.outcome.Pends? <==> a.end.Stuck?
    ensures r.outcome.Rejects? <==> a.end.Fatal? || a.end.Failed?
    ensures r.outcome.Rejects? ==> r.outcome.error == a.end.error
  {
    match a.end
    case Launched(res) => Run(Resolves(res), 1, [], a.end, a.maxTries, a.domains, a.sys)
    case Fatal(e) => Run(Rejects(e), 1, [], a.end, a.maxTries, a.domains, a.sys)
    case Stuck => Run(Pends, 1, [], a.end, a.maxTries, a.domains, a.sys)
    case Failed(e) => Run(Rejects(e), 1, [], a.end, a.maxTries - 1, a.domains, a.sys)
  }

  /** With a fixed port and a node start that always fails, one attempt
      gets through the steps before the `try`, spends nothing on allocation
      and fails with the start's error. */
  lemma FailingStartFailsAttempt(l: Launcher, w: World, sys: Sys)
    requires Valid(l) && Writable(l)
    requires Truthy(l.port) && !Contract(l) && !Truthy(Lookup(l.options, "useWorker"))
    requires PreTryReliable(w)
    requires forall t :: w.fails(ApiHubInstance, t) && !w.hangs(ApiHubInstance, t)
    ensures var a := RunAttempt(l, w, sys);
      && a.end.Failed? && a.end.error.Rejected? && a.end.error.source == ApiHubInstance
      && a.maxTries == l.maxTries
  {
    var stage := Prepare(l, w, sys);
    assert stage.out.Ok?;
    assert stage.maxTries == l.maxTries;
    assert RunAttempt(l, w, sys).end == Failed(Rejected(ApiHubInstance, stage.sys.time));
  }

  /** With a fixed port and a node start that always fails, the launch makes
      exactly as many attempts as the budget allows and then rejects with
      the start's error. */
  lemma {:induction false} FailingStartExhaustsBudget(l: Launcher, w: World, sys: Sys)
    requires Valid(l) && Writable(l)
    requires Truthy(l.port) && !Contract(l) && !Truthy(Lookup(l.options, "useWorker"))
    requires PreTryReliable(w)
    requires forall t :: w.fails(ApiHubInstance, t) && !w.hangs(ApiHubInstance, t)
    ensures LaunchAsync(l, w, sys).attempts == AttemptLimit(l.maxTries)
    ensures LaunchAsync(l, w, sys).outcome.Rejects?
    ensures LaunchAsync(l, w, sys).outcome.error.Rejected?
    ensures LaunchAsync(l, w, sys).outcome.error.source == ApiHubInstance
    decreases l.maxTries
  {
    FailingStartFailsAttempt(l, w, sys);
    var a := RunAttempt(l, w, sys);
    if l.maxTries > 1 {
      RetryRestarts(l, w, sys);
      FailingStartExhaustsBudget(l.(maxTries := l.maxTries - 1, domains := a.domains), w, a.sys);
    } else {
      NoRetryEndsLaunch(l, w, sys);
    }
  }

  /** When nothing fails or hangs, the first attempt launches the node on the
      port allocation picked. */
  lemma FirstAttemptLaunchesWhenNothingFails(l: Launcher, w: World, sys: Sys)
    requires Valid(l) && Writable(l)
    requires Flawless(w)
    ensures LaunchAsync(l, w, sys).attempts == 1
    ensures LaunchAsync(l, w, sys).outcome.Resolves?
    ensures LaunchAsync(l, w, sys).outcome.value.port == Allocate(l.port, l.maxTries, w, sys.time).port
  {
    assert PreTryReliable(w);
  }


}
