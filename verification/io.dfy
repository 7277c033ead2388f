/** The launcher's environment: external collaborators answer from an
    oracle, and the file system is an abstract map from paths to contents.

    Every external call takes one tick of a world clock; the oracle's
    answer to a call is a function of the collaborator and the tick, so a
    run of the launcher is a pure function of its inputs and the oracle.
 */
module Io {
  import opened Js

  /** The calls the launcher makes into code this model does not contain. */
  datatype Collaborator =
    | EnvSetup        // opendsu environment set-up in storeRequiredEnvironmentVariables
    | MakeDir         // fs.mkdir with { recursive: true }
    | WriteFile       // storeFileAsync and fs.writeFile
    | CreateIdentity  // w3cdid createIdentity, yielding a DID identifier
    | SetBdnsHosts    // opendsu bdns.setBDNSHosts
    | ContractWorker  // apihub worker that builds the contract and creates its domain
    | ApiHubWorker    // apihub worker that keeps serving
    | ApiHubInstance  // in-process apihub createInstance
    | ResolveDid      // w3cdid resolveDID
    | ZmqBind         // zeromq socket bindSync

  /** JavaScript exceptions and promise rejections. */
  datatype Error =
    | TypeError(reason: string)
    | Thrown(message: string)
    | Rejected(source: Collaborator, at: nat)

  datatype Result<+T> = Ok(value: T) | Err(error: Error)

  /** How a promise that may never settle ends. */
  datatype Settled<+T> = Resolves(value: T) | Rejects(error: Error) | Pends

  /** The oracle. `randomPort` and `portFree` answer getRandomPort and
      isPortAvailableAsync; `fails` and `hangs` say whether a call rejects or
      never settles; `text` and `reply` give what a successful call returns. */
  datatype World = World(
    randomPort: nat -> int,
    portFree: nat -> bool,
    fails: (Collaborator, nat) -> bool,
    hangs: (Collaborator, nat) -> bool,
    text: (Collaborator, nat) -> string,
    reply: (Collaborator, nat) -> Value)

  datatype FilePath = FilePath(dir: string, name: string)

  /** A file holds either the JSON serialisation of a value or raw text. */
  datatype Content = Json(value: Value) | Text(text: string)

  type Files = map<FilePath, Content>

  /** The mutable part of the environment: the files and the clock. */
  datatype Sys = Sys(files: Files, time: nat)

  datatype Step<+T> = Step(out: Result<T>, sys: Sys)

  /** The file `<name>.json` inside `dir`. */
  function JsonFile(dir: string, name: string): FilePath {
    FilePath(dir, name + ".json")
  }

  /** Different names never share a file. */
  lemma JsonFileInjective(dir: string, a: string, b: string)
    ensures a != b ==> JsonFile(dir, a) != JsonFile(dir, b)
  {
    if |a| == |b| {
      assert a == (a + ".json")[..|a|];
      assert b == (b + ".json")[..|b|];
    }
  }

  /** Every write call in the ticks [from, from + n) succeeds. */
  predicate WritesSucceed(w: World, from: nat, n: nat) {
    forall t :: from <= t < from + n ==> !w.fails(WriteFile, t)
  }

  /** One call that either rejects or returns; it touches no file. */
  function Call(w: World, c: Collaborator, sys: Sys): (r: Step<Value>)
    ensures r.sys == Sys(sys.files, sys.time + 1)
    ensures r.out.Ok? <==> !w.fails(c, sys.time)
    ensures r.out.Ok? ==> r.out.value == w.reply(c, sys.time)
    ensures r.out.Err? ==> r.out.error == Rejected(c, sys.time)
  {
    var next := Sys(sys.files, sys.time + 1);
    if w.fails(c, sys.time) then Step(Err(Rejected(c, sys.time)), next)
    else Step(Ok(w.reply(c, sys.time)), next)
  }

  /** One file write: on success the path holds the content afterwards. */
  function Write(w: World, sys: Sys, path: FilePath, content: Content): (r: Step<()>)
    ensures r.sys.time == sys.time + 1
    ensures r.out.Ok? <==> !w.fails(WriteFile, sys.time)
    ensures r.out.Ok? ==> r.sys.files == sys.files[path := content]
    ensures r.out.Err? ==> r.sys.files == sys.files && r.out.error == Rejected(WriteFile, sys.time)
  {
    if w.fails(WriteFile, sys.time) then Step(Err(Rejected(WriteFile, sys.time)), Sys(sys.files, sys.time + 1))
    else Step(Ok(()), Sys(sys.files[path := content], sys.time + 1))
  }

  /** A recursive mkdir: directories are not modelled, only its failure. */
  function MakeDirectory(w: World, sys: Sys): (r: Step<()>)
    ensures r.sys == Sys(sys.files, sys.time + 1)
    ensures r.out.Ok? <==> !w.fails(MakeDir, sys.time)
    ensures r.out.Err? ==> r.out.error == Rejected(MakeDir, sys.time)
  {
    if w.fails(MakeDir, sys.time) then Step(Err(Rejected(MakeDir, sys.time)), Sys(sys.files, sys.time + 1))
    else Step(Ok(()), Sys(sys.files, sys.time + 1))
  }

  /** The files after `<name>.json` of every entry has been written into
      `dir`, in order, later writes replacing earlier ones. */
  function Applied(files: Files, dir: string, entries: seq<(string, Content)>): Files
    decreases |entries|
  {
    if entries == [] then files
    else Applied(files[JsonFile(dir, entries[0].0) := entries[0].1], dir, entries[1..])
  }

  /** Reading back a written entry gives what was written, when no later
      entry has the same name. */
  lemma {:induction false} AppliedReadBack(files: Files, dir: string, entries: seq<(string, Content)>, i: int)
    requires 0 <= i < |entries|
    requires forall j :: i < j < |entries| ==> entries[j].0 != entries[i].0
    ensures JsonFile(dir, entries[i].0) in Applied(files, dir, entries)
    ensures Applied(files, dir, entries)[JsonFile(dir, entries[i].0)] == entries[i].1
    decreases |entries|
  {
    var next := files[JsonFile(dir, entries[0].0) := entries[0].1];
    if i == 0 {
      forall j | 0 <= j < |entries| - 1
        ensures JsonFile(dir, entries[0].0) != JsonFile(dir, entries[1..][j].0)
      {
        JsonFileInjective(dir, entries[0].0, entries[1..][j].0);
      }
      AppliedFrame(next, dir, entries[1..], JsonFile(dir, entries[0].0));
    } else {
      AppliedReadBack(next, dir, entries[1..], i - 1);
    }
  }

  /** Writing entries changes no path other than their own files. */
  lemma {:induction false} AppliedFrame(files: Files, dir: string, entries: seq<(string, Content)>, p: FilePath)
    requires forall j :: 0 <= j < |entries| ==> p != JsonFile(dir, entries[j].0)
    ensures p in Applied(files, dir, entries) <==> p in files
    ensures p in files ==> Applied(files, dir, entries)[p] == files[p]
    decreases |entries|
  {
    if entries != [] {
      AppliedFrame(files[JsonFile(dir, entries[0].0) := entries[0].1], dir, entries[1..], p);
    }
  }

  /** Writes the entries one by one, stopping at the first write that fails. */
  function WriteAll(w: World, sys: Sys, dir: string, entries: seq<(string, Content)>): (r: Step<()>)
    ensures sys.time <= r.sys.time <= sys.time + |entries|
    ensures r.out.Ok? <==> WritesSucceed(w, sys.time, |entries|)
    ensures r.out.Ok? ==> r.sys == Sys(Applied(sys.files, dir, entries), sys.time + |entries|)
    ensures r.out.Err? ==> r.out.error.Rejected? && r.out.error.source == WriteFile
    decreases |entries|
  {
    if entries == [] then Step(Ok(()), sys)
    else
      var first := Write(w, sys, JsonFile(dir, entries[0].0), entries[0].1);
      if first.out.Err? then first
      else
        WriteAll(w, first.sys, dir, entries[1..])
  }
}
