/** The pure helpers of the test-node launcher: completing the options,
    merging the default domains, choosing validators, deriving the BDNS
    table, patching domain configs with the contract constitution, and the
    configuration files written under the config folder.
 */
module LauncherUtils {
  import opened Js
  import opened Io

  /** The domains appended by `includeDefaultDomains`, in this order. */
  const DefaultDomainNames: seq<string> := ["default", "test1", "test2"]

  /** Position of a default domain name in `DefaultDomainNames`. */
  function DefaultRank(n: string): nat
    requires n in DefaultDomainNames
  {
    if n == "default" then 0 else if n == "test1" then 1 else 2
  }

  // ---------------------------------------------------------------------
  // Domains
  // ---------------------------------------------------------------------

  /** A `contracts` entry is either missing (falsy) or a plain object. */
  predicate ContractsShape(config: Props) {
    var contracts := Lookup(config, "contracts");
    !Truthy(contracts) || (contracts.Obj? && UniqueKeys(contracts.props))
  }

  /** The two shapes a domain entry takes: a bare name, or an object with a
      string `name` and an object `config`. */
  predicate WellFormedDomain(d: Value) {
    || d.Str?
    || (&& d.Obj?
        && UniqueKeys(d.props)
        && Lookup(d.props, "name").Str?
        && Lookup(d.props, "config").Obj?
        && UniqueKeys(Lookup(d.props, "config").props)
        && ContractsShape(Lookup(d.props, "config").props))
  }

  predicate WellFormedDomains(ds: seq<Value>) {
    forall i :: 0 <= i < |ds| ==> WellFormedDomain(ds[i])
  }

  function DomainName(d: Value): string
    requires WellFormedDomain(d)
  {
    if d.Str? then d.s else Lookup(d.props, "name").s
  }

  /** The config a domain entry stands for: empty for a bare name. */
  function ConfigOf(d: Value): Props
    requires WellFormedDomain(d)
  {
    if d.Str? then [] else Lookup(d.props, "config").props
  }

  /** The set of names of a domain list. */
  function NameSet(ds: seq<Value>): set<string>
    requires WellFormedDomains(ds)
  {
    set i | 0 <= i < |ds| :: DomainName(ds[i])
  }

  /** No two entries of the list share a name. */
  predicate UniqueNames(ds: seq<Value>)
    requires WellFormedDomains(ds)
  {
    forall i, j :: 0 <= i < j < |ds| ==> DomainName(ds[i]) != DomainName(ds[j])
  }

  /** getDomainNameAndConfig: a string is a name with an empty config; an
      object gives its own `name` and `config`; reading either property of
      `null` or `undefined` raises a TypeError. */
  function DomainNameAndConfig(d: Value): (r: Result<(Value, Value)>)
    ensures d.Str? ==> r == Ok((d, Obj([])))
    ensures d.Obj? ==> r == Ok((Lookup(d.props, "name"), Lookup(d.props, "config")))
    ensures r.Err? <==> Nullish(d)
    ensures WellFormedDomain(d) ==> r == Ok((Str(DomainName(d)), Obj(ConfigOf(d))))
  {
    if d.Str? then Ok((d, Obj([])))
    else
      match Get(d, "name")
      case None => Err(TypeError("Cannot read properties of " + NullishName(d) + " (reading 'name')"))
      case Some(name) => Ok((name, Get(d, "config").value))
  }

  /** The candidates, in their order, whose name is not `present`. */
  function Absent(candidates: seq<string>, present: set<string>): (r: seq<string>)
    ensures forall n :: n in r <==> n in candidates && n !in present
    ensures |r| <= |candidates|
  {
    if candidates == [] then []
    else (if candidates[0] in present then [] else [candidates[0]]) + Absent(candidates[1..], present)
  }

  function Names(ns: seq<string>): (r: seq<Value>)
    ensures |r| == |ns|
    ensures forall i :: 0 <= i < |ns| ==> r[i] == Str(ns[i])
  {
    seq(|ns|, i requires 0 <= i < |ns| => Str(ns[i]))
  }

  /** The `includeDefaultDomains` step of getCompleteOptions: every default
      name not already used by an entry is pushed, as a bare name, after the
      caller's entries. */
  function MergeDefaultDomains(ds: seq<Value>): (r: seq<Value>)
    requires WellFormedDomains(ds)
    ensures WellFormedDomains(r)
    ensures |ds| <= |r| <= |ds| + 3
    ensures r[..|ds|] == ds
    ensures forall i :: |ds| <= i < |r| ==>
      r[i].Str? && r[i].s in DefaultDomainNames && r[i].s !in NameSet(ds)
    ensures forall n :: n in DefaultDomainNames && n !in NameSet(ds) ==> Str(n) in r[|ds|..]
    ensures forall i, j :: |ds| <= i < j < |r| ==> DefaultRank(r[i].s) < DefaultRank(r[j].s)
  {
    var added := Absent(DefaultDomainNames, NameSet(ds));
    AbsentDefaults(NameSet(ds));
    AbsentRanked(NameSet(ds));
    var r := ds + Names(added);
    assert r[..|ds|] == ds;
    assert r[|ds|..] == Names(added);
    r
  }

  /** The missing default names keep the order of the defaults. */
  lemma AbsentRanked(present: set<string>)
    ensures var a := Absent(DefaultDomainNames, present);
      forall i, j :: 0 <= i < j < |a| ==> a[i] in DefaultDomainNames && a[j] in DefaultDomainNames && DefaultRank(a[i]) < DefaultRank(a[j])
  {
    AbsentDefaults(present);
  }

  /** Unfolds the filter over the three default names. */
  lemma AbsentDefaults(present: set<string>)
    ensures Absent(DefaultDomainNames, present) ==
      (if "default" in present then [] else ["default"])
      + (if "test1" in present then [] else ["test1"])
      + (if "test2" in present then [] else ["test2"])
  {
    var c := DefaultDomainNames;
    assert c[1..] == ["test1", "test2"];
    assert c[1..][1..] == ["test2"];
    assert c[1..][1..][1..] == [];
    assert Absent(c[1..][1..][1..], present) == [];
    assert Absent(c[1..][1..], present) == (if "test2" in present then [] else ["test2"]);
    assert Absent(c[1..], present) ==
      (if "test1" in present then [] else ["test1"]) + (if "test2" in present then [] else ["test2"]);
  }

  lemma NameSetAppend(ds: seq<Value>, extra: seq<Value>)
    requires WellFormedDomains(ds) && WellFormedDomains(extra)
    ensures WellFormedDomains(ds + extra)
    ensures NameSet(ds + extra) == NameSet(ds) + NameSet(extra)
  {
    var all := ds + extra;
    forall n | n in NameSet(all) ensures n in NameSet(ds) + NameSet(extra) {
      var i :| 0 <= i < |all| && DomainName(all[i]) == n;
      if i >= |ds| {
        assert DomainName(extra[i - |ds|]) == n;
      }
    }
    forall n | n in NameSet(ds) + NameSet(extra) ensures n in NameSet(all) {
      if n in NameSet(ds) {
        var i :| 0 <= i < |ds| && DomainName(ds[i]) == n;
        assert all[i] == ds[i];
      } else {
        var i :| 0 <= i < |extra| && DomainName(extra[i]) == n;
        assert all[|ds| + i] == extra[i];
      }
    }
  }

  /** Lists whose entries have the same names position by position have
      the same name set. */
  lemma SameNames(a: seq<Value>, b: seq<Value>)
    requires WellFormedDomains(a) && WellFormedDomains(b) && |a| == |b|
    requires forall i :: 0 <= i < |a| ==> DomainName(a[i]) == DomainName(b[i])
    ensures NameSet(a) == NameSet(b)
  {
    forall n | n in NameSet(a) ensures n in NameSet(b) {
      var i :| 0 <= i < |a| && DomainName(a[i]) == n;
      assert DomainName(b[i]) == n;
    }
    forall n | n in NameSet(b) ensures n in NameSet(a) {
      var i :| 0 <= i < |b| && DomainName(b[i]) == n;
      assert DomainName(a[i]) == n;
    }
  }

  lemma NameSetCons(ds: seq<Value>)
    requires WellFormedDomains(ds) && ds != []
    ensures WellFormedDomains(ds[1..])
    ensures NameSet(ds) == {DomainName(ds[0])} + NameSet(ds[1..])
  {
    assert ds == [ds[0]] + ds[1..];
    NameSetAppend([ds[0]], ds[1..]);
    assert NameSet([ds[0]]) == {DomainName(ds[0])};
  }

  /** After the merge every default name is present. */
  lemma {:induction false} MergeCoversDefaults(ds: seq<Value>)
    requires WellFormedDomains(ds)
    ensures forall n :: n in DefaultDomainNames ==> n in NameSet(MergeDefaultDomains(ds))
  {
    var r := MergeDefaultDomains(ds);
    forall n | n in DefaultDomainNames ensures n in NameSet(r) {
      if n in NameSet(ds) {
        var i :| 0 <= i < |ds| && DomainName(ds[i]) == n;
        assert r[i] == ds[i];
      } else {
        var k :| 0 <= k < |r[|ds|..]| && r[|ds|..][k] == Str(n);
        assert r[|ds| + k] == Str(n);
      }
    }
  }

  /** Merging the defaults into an already merged list appends nothing. */
  lemma {:induction false} MergeIdempotent(ds: seq<Value>)
    requires WellFormedDomains(ds)
    ensures MergeDefaultDomains(MergeDefaultDomains(ds)) == MergeDefaultDomains(ds)
  {
    var r := MergeDefaultDomains(ds);
    MergeCoversDefaults(ds);
    AbsentDefaults(NameSet(r));
    assert Names([]) == [];
  }

  /** A list without repeated names keeps that property through the merge. */
  lemma {:induction false} MergeKeepsNamesUnique(ds: seq<Value>)
    requires WellFormedDomains(ds)
    requires UniqueNames(ds)
    ensures UniqueNames(MergeDefaultDomains(ds))
  {
    var r := MergeDefaultDomains(ds);
    forall i, j | 0 <= i < j < |r| ensures DomainName(r[i]) != DomainName(r[j]) {
      if j < |ds| {
        assert r[i] == ds[i] && r[j] == ds[j];
      } else if i < |ds| {
        assert r[i] == ds[i];
        assert DomainName(ds[i]) in NameSet(ds);
      } else {
        assert DefaultRank(r[i].s) < DefaultRank(r[j].s);
      }
    }
  }

  // ---------------------------------------------------------------------
  // Option completion
  // ---------------------------------------------------------------------

  /** The value getCompleteOptions' first pass leaves under key `k`: the
      default when the supplied value is `== null`, else the supplied one. */
  function Filled(options: Props, defaults: Props, k: string): Value {
    if k in Keys(defaults) && Nullish(Lookup(options, k)) then Lookup(defaults, k) else Lookup(options, k)
  }

  /** Writes, for each default in order, its value over a `== null` entry. */
  function FillDefaults(acc: Props, defaults: Props): (r: Props)
    requires UniqueKeys(defaults)
    ensures forall k :: Lookup(r, k) == Filled(acc, defaults, k)
    ensures forall k :: k in Keys(r) <==> k in Keys(acc) || k in Keys(defaults)
    ensures UniqueKeys(acc) ==> UniqueKeys(r)
    decreases |defaults|
  {
    if defaults == [] then acc
    else
      var k := defaults[0].0;
      var next := if Nullish(Lookup(acc, k)) then Put(acc, k, defaults[0].1) else acc;
      var r := FillDefaults(next, defaults[1..]);
      FillStep(acc, defaults, next, r);
      r
  }

  /** One default written: filling the rest over `next` fills all of them
      over `acc`. */
  lemma FillStep(acc: Props, defaults: Props, next: Props, r: Props)
    requires UniqueKeys(defaults) && defaults != []
    requires next == if Nullish(Lookup(acc, defaults[0].0)) then Put(acc, defaults[0].0, defaults[0].1) else acc
    requires forall k :: Lookup(r, k) == Filled(next, defaults[1..], k)
    requires forall k :: k in Keys(r) <==> k in Keys(next) || k in Keys(defaults[1..])
    ensures forall k :: Lookup(r, k) == Filled(acc, defaults, k)
    ensures forall k :: k in Keys(r) <==> k in Keys(acc) || k in Keys(defaults)
  {
    forall k ensures Lookup(r, k) == Filled(acc, defaults, k) {
      FillStepAt(acc, defaults, next, k);
    }
    HeadKey(defaults);
  }

  /** FillStep for one key. */
  lemma FillStepAt(acc: Props, defaults: Props, next: Props, k: string)
    requires UniqueKeys(defaults) && defaults != []
    requires next == if Nullish(Lookup(acc, defaults[0].0)) then Put(acc, defaults[0].0, defaults[0].1) else acc
    ensures Filled(next, defaults[1..], k) == Filled(acc, defaults, k)
  {
    HeadKey(defaults);
    if k == defaults[0].0 {
      LookupAt(defaults, 0);
    } else {
      assert Lookup(next, k) == Lookup(acc, k);
      assert Lookup(defaults, k) == Lookup(defaults[1..], k);
    }
  }

  /** A `domains` option the launcher can work with: falsy, or a list of
      well-formed domain entries. */
  predicate DomainsShape(v: Value) {
    !Truthy(v) || (v.Arr? && WellFormedDomains(v.items))
  }

  /** The domain entries a `domains` value stands for once completed. */
  function DomainItems(v: Value): seq<Value>
    requires DomainsShape(v)
  {
    if Truthy(v) then v.items else []
  }

  /** The storage-folder step of getCompleteOptions: a falsy folder is
      replaced by the fresh one. */
  function WithStorageFolder(ps: Props, freshFolder: string): (r: Props)
    ensures forall k :: k != "storageFolder" ==> Lookup(r, k) == Lookup(ps, k)
    ensures forall k :: k in Keys(r) <==> k in Keys(ps) || k == "storageFolder"
    ensures Lookup(r, "storageFolder") ==
      (if Truthy(Lookup(ps, "storageFolder")) then Lookup(ps, "storageFolder") else Str(freshFolder))
    ensures UniqueKeys(ps) ==> UniqueKeys(r)
  {
    if Truthy(Lookup(ps, "storageFolder")) then
      assert "storageFolder" in Keys(ps);
      ps
    else Put(ps, "storageFolder", Str(freshFolder))
  }

  /** The domains step of getCompleteOptions: a falsy list becomes `[]`, and
      the defaults are merged when `includeDefaultDomains` is truthy. */
  function WithDomains(ps: Props): (r: Props)
    requires DomainsShape(Lookup(ps, "domains"))
    ensures forall k :: k != "domains" ==> Lookup(r, k) == Lookup(ps, k)
    ensures forall k :: k in Keys(r) <==> k in Keys(ps) || k == "domains"
    ensures Lookup(r, "domains") ==
      var base := DomainItems(Lookup(ps, "domains"));
      Arr(if Truthy(Lookup(ps, "includeDefaultDomains")) then MergeDefaultDomains(base) else base)
    ensures UniqueKeys(ps) ==> UniqueKeys(r)
  {
    var base := DomainItems(Lookup(ps, "domains"));
    var listed := if Truthy(Lookup(ps, "domains")) then ps else Put(ps, "domains", Arr([]));
    assert "domains" in Keys(listed);
    if Truthy(Lookup(ps, "includeDefaultDomains")) then
      Put(listed, "domains", Arr(MergeDefaultDomains(base)))
    else
      PutSame(listed, "domains");
      listed
  }

  /** getCompleteOptions: fills the defaults, names a fresh storage folder
      when none is given (`freshFolder` is what mkdtempSync returned), makes
      `domains` a list and, when asked to, merges the default domains. */
  function CompleteOptions(options: Props, defaults: Props, freshFolder: string): (r: Props)
    requires UniqueKeys(options) && UniqueKeys(defaults)
    requires DomainsShape(Filled(options, defaults, "domains"))
    ensures UniqueKeys(r)
    ensures forall k :: k != "storageFolder" && k != "domains" ==> Lookup(r, k) == Filled(options, defaults, k)
    ensures forall k :: k in Keys(r) <==> k in Keys(options) || k in Keys(defaults) || k == "storageFolder" || k == "domains"
    ensures Lookup(r, "storageFolder") ==
      (if Truthy(Filled(options, defaults, "storageFolder")) then Filled(options, defaults, "storageFolder") else Str(freshFolder))
    ensures Lookup(r, "domains") ==
      var base := DomainItems(Filled(options, defaults, "domains"));
      Arr(if Truthy(Filled(options, defaults, "includeDefaultDomains")) then MergeDefaultDomains(base) else base)
  {
    var filled := FillDefaults(options, defaults);
    var stored := WithStorageFolder(filled, freshFolder);
    CompletedLookups(options, defaults, filled, stored);
    var r := WithDomains(stored);
    CompletedKeys(options, defaults, filled, stored, r);
    r
  }

  /** The three steps of getCompleteOptions compose key by key. */
  lemma CompletedLookups(options: Props, defaults: Props, filled: Props, stored: Props)
    requires forall k :: Lookup(filled, k) == Filled(options, defaults, k)
    requires forall k :: k != "storageFolder" ==> Lookup(stored, k) == Lookup(filled, k)
    ensures Lookup(stored, "domains") == Filled(options, defaults, "domains")
    ensures Lookup(stored, "includeDefaultDomains") == Filled(options, defaults, "includeDefaultDomains")
    ensures forall k :: k != "storageFolder" ==> Lookup(stored, k) == Filled(options, defaults, k)
  {
  }

  lemma CompletedKeys(options: Props, defaults: Props, filled: Props, stored: Props, r: Props)
    requires forall k :: k in Keys(filled) <==> k in Keys(options) || k in Keys(defaults)
    requires forall k :: k in Keys(stored) <==> k in Keys(filled) || k == "storageFolder"
    requires forall k :: k in Keys(r) <==> k in Keys(stored) || k == "domains"
    ensures forall k :: k in Keys(r) <==> k in Keys(options) || k in Keys(defaults) || k == "storageFolder" || k == "domains"
  {
  }

  // ---------------------------------------------------------------------
  // Validators and BDNS
  // ---------------------------------------------------------------------

  /** The validator entry a node uses when none are configured. */
  function SelfValidator(validatorDID: Value, nodeUrl: string): Value {
    Obj([("DID", validatorDID), ("URL", Str(nodeUrl))])
  }

  /** getValidators: the configured validators, else exactly one entry made
      of the validator DID and the node's own URL. */
  function Validators(options: Props, validatorDID: Value, nodeUrl: string): (r: Value)
    ensures Truthy(Lookup(options, "validators")) ==> r == Lookup(options, "validators")
    ensures !Truthy(Lookup(options, "validators")) ==>
      && r.Arr? && |r.items| == 1 && r.items[0].Obj?
      && Keys(r.items[0].props) == ["DID", "URL"]
      && Lookup(r.items[0].props, "DID") == validatorDID
      && Lookup(r.items[0].props, "URL") == Str(nodeUrl)
  {
    var configured := Lookup(options, "validators");
    if Truthy(configured) then configured else Arr([SelfValidator(validatorDID, nodeUrl)])
  }

  /** The BDNS record of one domain in a single-node topology: every service
      role is served by the node itself. */
  function BdnsEntry(nodeUrl: string, validators: Value): Value {
    var self := Arr([Str(nodeUrl)]);
    Obj([
      ("replicas", Arr([])),
      ("notifications", self),
      ("brickStorages", self),
      ("anchoringServices", self),
      ("contractServices", self),
      ("validators", validators)
    ])
  }

  /** `bdns[domain.name] = entry` for every domain, in list order. */
  function AddBdnsEntries(acc: Props, ds: seq<Value>, entry: Value): (r: Props)
    requires WellFormedDomains(ds)
    requires UniqueKeys(acc)
    requires forall k :: k in Keys(acc) ==> Lookup(acc, k) == entry
    ensures UniqueKeys(r)
    ensures forall k :: k in Keys(r) <==> k in Keys(acc) || k in NameSet(ds)
    ensures forall k :: k in Keys(r) ==> Lookup(r, k) == entry
    decreases |ds|
  {
    if ds == [] then acc
    else
      NameSetCons(ds);
      AddBdnsEntries(Put(acc, DomainName(ds[0]), entry), ds[1..], entry)
  }

  /** getBDNSEntries: a configured `bdns` is used untouched; otherwise the
      table has exactly one key per domain name, each mapped to the node's
      own entry. */
  function BdnsEntries(options: Props, ds: seq<Value>, nodeUrl: string, validators: Value): (r: Value)
    requires WellFormedDomains(ds)
    ensures Truthy(Lookup(options, "bdns")) ==> r == Lookup(options, "bdns")
    ensures !Truthy(Lookup(options, "bdns")) ==>
      && r.Obj? && UniqueKeys(r.props)
      && (forall k :: k in Keys(r.props) <==> k in NameSet(ds))
      && (forall k :: k in Keys(r.props) ==> Lookup(r.props, k) == BdnsEntry(nodeUrl, validators))
  {
    var configured := Lookup(options, "bdns");
    if Truthy(configured) then configured else Obj(AddBdnsEntries([], ds, BdnsEntry(nodeUrl, validators)))
  }

  /** The `{domain, content}` list storeDBNSAsync derives from an object:
      one pair per own key, in key order, holding that key's value. For a
      well-formed object the pairs reassemble into the object itself. */
  function BdnsProjection(content: Value): (entries: Props)
    ensures content.Obj? ==> |entries| == |content.props|
    ensures content.Obj? ==> forall i :: 0 <= i < |entries| ==>
      entries[i] == (content.props[i].0, Lookup(content.props, content.props[i].0))
    ensures !content.Obj? ==> entries == []
    ensures content.Obj? && UniqueKeys(content.props) ==> Obj(entries) == content
  {
    if content.Obj? then
      var ps := content.props;
      var entries := seq(|ps|, i requires 0 <= i < |ps| => (ps[i].0, Lookup(ps, ps[i].0)));
      assert UniqueKeys(ps) ==> entries == ps by {
        if UniqueKeys(ps) {
          forall i | 0 <= i < |ps| ensures entries[i] == ps[i] {
            LookupAt(ps, i);
          }
        }
      }
      entries
    else []
  }

  // ---------------------------------------------------------------------
  // Constitution patch
  // ---------------------------------------------------------------------

  /** `config.contracts.constitution = seed`, creating `contracts` as an
      empty object first when it is falsy. */
  function PatchConfig(config: Props, seed: Value): (r: Props)
    requires ContractsShape(config)
    ensures Lookup(r, "contracts").Obj?
    ensures Lookup(Lookup(r, "contracts").props, "constitution") == seed
    ensures forall k :: k != "contracts" ==> Lookup(r, k) == Lookup(config, k)
    ensures forall k :: k != "constitution" ==>
      Lookup(Lookup(r, "contracts").props, k) ==
        (if Truthy(Lookup(config, "contracts")) then Lookup(Lookup(config, "contracts").props, k) else Undefined)
    ensures ContractsShape(r)
    ensures UniqueKeys(config) ==> UniqueKeys(r)
  {
    var contracts := Lookup(config, "contracts");
    var base := if Truthy(contracts) then contracts.props else [];
    Put(config, "contracts", Obj(Put(base, "constitution", seed)))
  }

  /** A domain config whose `contracts.constitution` is `seed`. */
  predicate ConstitutionIs(c: Props, seed: Value) {
    Lookup(c, "contracts").Obj? && Lookup(Lookup(c, "contracts").props, "constitution") == seed
  }

  /** Patching again with another seed overwrites only the constitution. */
  lemma PatchConfigTwice(config: Props, seed1: Value, seed2: Value)
    requires ContractsShape(config)
    ensures PatchConfig(PatchConfig(config, seed1), seed2) == PatchConfig(config, seed2)
  {
    var contracts := Lookup(config, "contracts");
    var base := if Truthy(contracts) then contracts.props else [];
    PutPut(base, "constitution", seed1, seed2);
    PutPut(config, "contracts", Obj(Put(base, "constitution", seed1)), Obj(Put(base, "constitution", seed2)));
  }

  /** One domain through updateDomainConfigsWithContractConstitutionAsync:
      the `{name, config}` entry that gets written, and the domain entry
      afterwards (an object's config is patched in place; a bare name is
      untouched, its fresh config is discarded). */
  function PatchDomain(d: Value, seed: Value): (r: (Value, Value))
    requires WellFormedDomain(d)
    ensures WellFormedDomain(r.0) && WellFormedDomain(r.1)
    ensures DomainName(r.0) == DomainName(d) && DomainName(r.1) == DomainName(d)
    ensures ConfigOf(r.0) == PatchConfig(ConfigOf(d), seed)
    ensures d.Str? ==> r.1 == d
    ensures d.Obj? ==>
      && r.1.Obj?
      && ConfigOf(r.1) == ConfigOf(r.0)
      && Keys(r.1.props) == Keys(d.props)
      && forall k :: k != "config" ==> Lookup(r.1.props, k) == Lookup(d.props, k)
  {
    var config := PatchConfig(ConfigOf(d), seed);
    NamedConfigFields(DomainName(d), config);
    var written := NamedConfig(DomainName(d), config);
    if d.Str? then (written, d)
    else
      var after := Put(d.props, "config", Obj(config));
      assert Lookup(after, "name") == Lookup(d.props, "name");
      assert Lookup(after, "config") == Obj(config);
      (written, Obj(after))
  }

  /** The `{name, config}` entry written for a domain. */
  function NamedConfig(name: string, config: Props): Value {
    Obj([("name", Str(name)), ("config", Obj(config))])
  }

  lemma NamedConfigFields(name: string, config: Props)
    ensures NamedConfig(name, config).Obj?
    ensures UniqueKeys(NamedConfig(name, config).props)
    ensures Lookup(NamedConfig(name, config).props, "name") == Str(name)
    ensures Lookup(NamedConfig(name, config).props, "config") == Obj(config)
  {
    var ps := NamedConfig(name, config).props;
    assert ps[1..] == [("config", Obj(config))];
  }

  /** The whole-list patch: the entries written and the list afterwards. */
  function PatchDomains(ds: seq<Value>, seed: Value): (r: (seq<Value>, seq<Value>))
    requires WellFormedDomains(ds)
    ensures |r.0| == |ds| && |r.1| == |ds|
    ensures WellFormedDomains(r.0) && WellFormedDomains(r.1)
    ensures forall i :: 0 <= i < |ds| ==>
      && DomainName(r.0[i]) == DomainName(ds[i])
      && ConfigOf(r.0[i]) == PatchConfig(ConfigOf(ds[i]), seed)
      && DomainName(r.1[i]) == DomainName(ds[i])
    ensures forall i :: 0 <= i < |ds| && ds[i].Str? ==> r.1[i] == ds[i]
    ensures forall i :: 0 <= i < |ds| && ds[i].Obj? ==>
      && r.1[i].Obj?
      && ConfigOf(r.1[i]) == ConfigOf(r.0[i])
      && Keys(r.1[i].props) == Keys(ds[i].props)
      && forall k :: k != "config" ==> Lookup(r.1[i].props, k) == Lookup(ds[i].props, k)
  {
    var patched := seq(|ds|, i requires 0 <= i < |ds| => PatchDomain(ds[i], seed));
    var written := seq(|ds|, i requires 0 <= i < |ds| => patched[i].0);
    var after := seq(|ds|, i requires 0 <= i < |ds| => patched[i].1);
    (written, after)
  }

  // ---------------------------------------------------------------------
  // Configuration files
  // ---------------------------------------------------------------------

  /** getConfigFolderPath: `<root>/external-volume/config`; path.join
      rejects a root that is not a string. */
  function ConfigFolderPath(root: Value): (r: Result<string>)
    ensures r.Ok? <==> root.Str?
    ensures root.Str? ==> r.value == root.s + "/external-volume/config"
  {
    if root.Str? then Ok(root.s + "/external-volume/config")
    else Err(TypeError("The \"path\" argument must be of type string"))
  }

  /** storeServerConfigAsync: `apihub.json` holds the server config. */
  function StoreServerConfig(w: World, sys: Sys, root: Value, content: Value): (r: Step<()>)
    ensures r.out.Ok? <==> root.Str? && !w.fails(WriteFile, sys.time)
    ensures r.out.Err? ==> if root.Str? then r.out.error == Rejected(WriteFile, sys.time) else r.out.error.TypeError?
    ensures r.out.Ok? ==>
      r.sys == Sys(sys.files[FilePath(ConfigFolderPath(root).value, "apihub.json") := Json(content)], sys.time + 1)
  {
    match ConfigFolderPath(root)
    case Err(e) => Step(Err(e), sys)
    case Ok(folder) => Write(w, sys, FilePath(folder, "apihub.json"), Json(content))
  }

  /** The `<name>.json` files storeServerDomainConfigsAsync writes, in order. */
  function DomainConfigFiles(ds: seq<Value>): (entries: seq<(string, Content)>)
    requires WellFormedDomains(ds)
    ensures |entries| == |ds|
    ensures forall i :: 0 <= i < |ds| ==> entries[i] == (DomainName(ds[i]), Json(Obj(ConfigOf(ds[i]))))
  {
    seq(|ds|, i requires 0 <= i < |ds| => (DomainName(ds[i]), Json(Obj(ConfigOf(ds[i])))))
  }

  /** storeServerDomainConfigsAsync: one `domains/<name>.json` per entry,
      holding the entry's config (`{}` for a bare name). */
  function StoreServerDomainConfigs(w: World, sys: Sys, root: Value, ds: seq<Value>): (r: Step<()>)
    requires WellFormedDomains(ds)
    ensures r.out.Ok? <==> root.Str? && WritesSucceed(w, sys.time, |ds|)
    ensures r.out.Err? ==> if root.Str? then r.out.error.Rejected? && r.out.error.source == WriteFile else r.out.error.TypeError?
    ensures r.out.Ok? ==> r.sys.time == sys.time + |ds|
    ensures r.out.Ok? ==> DomainConfigsOnDisk(r.sys.files, ConfigFolderPath(root).value, ds)
    ensures r.out.Ok? ==> SameOutside(sys.files, r.sys.files, ConfigFolderPath(root).value + "/domains", None)
  {
    match ConfigFolderPath(root)
    case Err(e) => Step(Err(e), sys)
    case Ok(folder) =>
      var dir := folder + "/domains";
      var entries := DomainConfigFiles(ds);
      var r := WriteAll(w, sys, dir, entries);
      if r.out.Ok? then
        assert DomainConfigsOnDisk(r.sys.files, folder, ds) by {
          forall i | 0 <= i < |ds| && LastOfName(ds, i)
            ensures JsonFile(dir, DomainName(ds[i])) in r.sys.files
            ensures r.sys.files[JsonFile(dir, DomainName(ds[i]))] == Json(Obj(ConfigOf(ds[i])))
          {
            AppliedReadBack(sys.files, dir, entries, i);
          }
        }
        assert SameOutside(sys.files, r.sys.files, dir, None) by {
          forall p: FilePath | p.dir != dir
            ensures (p in r.sys.files <==> p in sys.files) && (p in sys.files ==> r.sys.files[p] == sys.files[p])
          {
            AppliedFrame(sys.files, dir, entries, p);
          }
        }
        r
      else r
  }

  /** The entry at `i` is the last one with its name, so its file is the
      one a sequence of writes leaves behind. */
  predicate LastOfName(ds: seq<Value>, i: int)
    requires WellFormedDomains(ds) && 0 <= i < |ds|
  {
    forall j :: i < j < |ds| ==> DomainName(ds[j]) != DomainName(ds[i])
  }

  /** Every name of a list has a last entry carrying it. */
  lemma {:induction false} LastOccurrence(ds: seq<Value>, n: string) returns (i: int)
    requires WellFormedDomains(ds) && n in NameSet(ds)
    ensures 0 <= i < |ds| && DomainName(ds[i]) == n && LastOfName(ds, i)
    decreases |ds|
  {
    var k := |ds| - 1;
    if DomainName(ds[k]) == n {
      i := k;
    } else {
      var front := ds[..k];
      assert WellFormedDomains(front);
      assert n in NameSet(front) by {
        var j :| 0 <= j < |ds| && DomainName(ds[j]) == n;
        assert j < k && front[j] == ds[j];
      }
      i := LastOccurrence(front, n);
      LastOfNameExtends(front, ds, i);
    }
  }

  /** The last entry of a name in a prefix stays the last one when the
      only entry added carries another name. */
  lemma LastOfNameExtends(front: seq<Value>, ds: seq<Value>, i: int)
    requires WellFormedDomains(ds) && |ds| > 0 && front == ds[..|ds| - 1]
    requires 0 <= i < |front| && WellFormedDomains(front) && LastOfName(front, i)
    requires DomainName(ds[|ds| - 1]) != DomainName(front[i])
    ensures DomainName(ds[i]) == DomainName(front[i]) && LastOfName(ds, i)
  {
    forall j | i < j < |ds| ensures DomainName(ds[j]) != DomainName(ds[i]) {
      if j < |ds| - 1 {
        assert ds[j] == front[j];
      }
    }
  }

  /** Under `folder`, `domains/<name>.json` holds the config of the last
      entry of that name. */
  predicate DomainConfigsOnDisk(files: Files, folder: string, ds: seq<Value>)
    requires WellFormedDomains(ds)
  {
    forall i :: 0 <= i < |ds| && LastOfName(ds, i) ==>
      && JsonFile(folder + "/domains", DomainName(ds[i])) in files
      && files[JsonFile(folder + "/domains", DomainName(ds[i]))] == Json(Obj(ConfigOf(ds[i])))
  }

  /** Under `folder`, `bdns.hosts` holds the table and, for an object,
      `bdns/<key>.json` holds each key's entry. */
  predicate BdnsOnDisk(files: Files, folder: string, content: Value) {
    && FilePath(folder, "bdns.hosts") in files
    && files[FilePath(folder, "bdns.hosts")] == HostsContent(content)
    && (content.Obj? ==> forall k :: k in Keys(content.props) ==>
          && JsonFile(folder + "/bdns", k) in files
          && files[JsonFile(folder + "/bdns", k)] == Json(Lookup(content.props, k)))
  }

  /** Every file outside `dir`, except `also`, is as it was. */
  ghost predicate SameOutside(before: Files, after: Files, dir: string, also: Option<FilePath>) {
    forall p: FilePath :: p.dir != dir && Some(p) != also ==>
      (p in after <==> p in before) && (p in before ==> after[p] == before[p])
  }

  /** `apihub.json` survives the domain config writes, which stay inside
      `domains/`. */
  lemma ServerConfigSurvives(before: Files, after: Files, folder: string)
    requires SameOutside(before, after, folder + "/domains", None)
    ensures FilePath(folder, "apihub.json") in before ==>
      FilePath(folder, "apihub.json") in after && after[FilePath(folder, "apihub.json")] == before[FilePath(folder, "apihub.json")]
  {
    assert |folder + "/domains"| != |folder|;
  }

  /** The domain configs and `apihub.json` survive the BDNS writes, which
      stay inside `bdns/` and `bdns.hosts`. */
  lemma ConfigsSurviveBdns(before: Files, after: Files, folder: string, ds: seq<Value>)
    requires WellFormedDomains(ds)
    requires SameOutside(before, after, folder + "/bdns", Some(FilePath(folder, "bdns.hosts")))
    ensures DomainConfigsOnDisk(before, folder, ds) ==> DomainConfigsOnDisk(after, folder, ds)
    ensures FilePath(folder, "apihub.json") in before ==>
      FilePath(folder, "apihub.json") in after && after[FilePath(folder, "apihub.json")] == before[FilePath(folder, "apihub.json")]
  {
    assert (folder + "/domains")[|folder| + 1] == 'd';
    assert (folder + "/bdns")[|folder| + 1] == 'b';
    assert "apihub.json" != "bdns.hosts" by {
      assert "apihub.json"[0] != "bdns.hosts"[0];
    }
  }

  /** A BDNS value storeDBNSAsync can be given: truthy (getBDNSEntries never
      yields a falsy one), not an array, and a well-formed object if an object. */
  predicate BdnsShape(content: Value) {
    Truthy(content) && !content.Arr? && (content.Obj? ==> UniqueKeys(content.props))
  }

  /** What `bdns.hosts` receives: an object serialised, a string as is. */
  function HostsContent(content: Value): Content {
    if content.Str? then Text(content.s) else Json(content)
  }

  /** storeDBNSAsync. An object is written whole to `bdns.hosts` and, key by
      key, to `bdns/<domain>.json`; a string is written raw to `bdns.hosts`
      only; any other value makes fs.writeFile raise a TypeError after the
      config folder was created. */
  function StoreBdns(w: World, sys: Sys, root: Value, content: Value): (r: Step<()>)
    requires BdnsShape(content)
    ensures r.out.Ok? ==> root.Str? && (content.Obj? || content.Str?)
    ensures r.out.Err? ==> r.out.error.TypeError? || (r.out.error.Rejected? && r.out.error.source in {MakeDir, WriteFile})
    ensures r.out.Ok? ==> BdnsOnDisk(r.sys.files, ConfigFolderPath(root).value, content)
    ensures r.out.Ok? && BdnsProjection(content) == [] ==>
      r.sys.files == sys.files[FilePath(ConfigFolderPath(root).value, "bdns.hosts") := HostsContent(content)]
    ensures r.out.Ok? ==>
      var folder := ConfigFolderPath(root).value;
      SameOutside(sys.files, r.sys.files, folder + "/bdns", Some(FilePath(folder, "bdns.hosts")))
    ensures r.out.Ok? <==>
      && root.Str? && (content.Obj? || content.Str?)
      && !w.fails(MakeDir, sys.time) && !w.fails(WriteFile, sys.time + 1)
      && (BdnsProjection(content) != [] ==>
          !w.fails(MakeDir, sys.time + 2) && WritesSucceed(w, sys.time + 3, |BdnsProjection(content)|))
  {
    match ConfigFolderPath(root)
    case Err(e) => Step(Err(e), sys)
    case Ok(folder) =>
      var made := MakeDirectory(w, sys);
      if made.out.Err? then made
      else if !(content.Obj? || content.Str?) then
        Step(Err(TypeError("The \"data\" argument must be of type string")), made.sys)
      else
        var hosts := FilePath(folder, "bdns.hosts");
        var wrote := Write(w, made.sys, hosts, HostsContent(content));
        var entries := BdnsProjection(content);
        if wrote.out.Err? || entries == [] then wrote
        else
          var madeBdns := MakeDirectory(w, wrote.sys);
          if madeBdns.out.Err? then madeBdns
          else
            var dir := folder + "/bdns";
            var files := seq(|entries|, i requires 0 <= i < |entries| => (entries[i].0, Json(entries[i].1)));
            var r := WriteAll(w, madeBdns.sys, dir, files);
            if r.out.Ok? then
              StoreBdnsReadBack(wrote.sys.files, folder, content, files);
              r
            else r
  }

  /** The per-domain files of a well-formed object read back as its values,
      and nothing outside `bdns/` moves. */
  lemma StoreBdnsReadBack(files: Files, folder: string, content: Value, written: seq<(string, Content)>)
    requires content.Obj? && UniqueKeys(content.props)
    requires |written| == |content.props|
    requires forall i :: 0 <= i < |written| ==> written[i] == (content.props[i].0, Json(Lookup(content.props, content.props[i].0)))
    ensures forall k :: k in Keys(content.props) ==>
      var path := JsonFile(folder + "/bdns", k);
      path in Applied(files, folder + "/bdns", written) && Applied(files, folder + "/bdns", written)[path] == Json(Lookup(content.props, k))
    ensures forall p: FilePath :: p.dir != folder + "/bdns" ==>
      (p in Applied(files, folder + "/bdns", written) <==> p in files)
      && (p in files ==> Applied(files, folder + "/bdns", written)[p] == files[p])
  {
    var dir := folder + "/bdns";
    var ps := content.props;
    KeysAt(ps);
    forall k | k in Keys(ps)
      ensures JsonFile(dir, k) in Applied(files, dir, written)
      ensures Applied(files, dir, written)[JsonFile(dir, k)] == Json(Lookup(ps, k))
    {
      var i :| 0 <= i < |ps| && ps[i].0 == k;
      AppliedReadBack(files, dir, written, i);
    }
    forall p: FilePath | p.dir != dir
      ensures p in Applied(files, dir, written) <==> p in files
      ensures p in files ==> Applied(files, dir, written)[p] == files[p]
    {
      AppliedFrame(files, dir, written, p);
    }
  }
}
