/** `BaseStrategy::compile` with its cache of compiled binaries, against an engine without one.

    Before each build the payload's files are written to /tmp, where they stay; then the source,
    under its language's name; and the build may read all that is there.  A binary is cached in
    a file named after the hash and the length of the source -- not after the language, and not
    after the other files.  When the cache has it, nothing is built and the source is not
    written. */
module CompileCache {
  import opened Bytes

  type Path = string

  /** A directory of files. */
  type Files = map<Path, Data>

  /** What a strategy class fixes: whether it has a compile command, whether it names its
      compiled binary (only then is anything cached), where it writes the source, and where the
      build puts its binary. */
  datatype Strategy = Strategy(id: nat, compiles: bool, namesBinary: bool, sourceFile: Path, artifact: Path)

  datatype Request = Request(strategy: Strategy, source: Data, files: Files)

  /** All that a build depends on: the source is part of the workspace, too. */
  datatype Input = Input(strategy: Strategy, source: Data, workspace: Files)

  datatype Outcome =
    | Built(binary: Data)
    | Rejected(errors: Data, keepsOld: bool)   // non-zero exit; an older binary may survive or not
    | Killed(output: Data, keepsOld: bool)     // signal or timeout

  datatype Reply = Reply(success: bool, errors: Data)

  /** Besides compiling, a strategy's `execute` may write the source of an interpreted language,
      or remove the binary and the source of a compile-only one. */
  datatype Event = Compile(request: Request) | Write(path: Path, data: Data) | Remove(path: Path)

  type Compiler = Input -> Outcome
  type Hash = Data -> nat

  datatype Key = Key(hash: nat, length: nat)

  /** /tmp as far as compiling goes: the jit_* files, the installed binaries, and the rest --
      payload files and sources. */
  datatype Disk = Disk(cache: map<Key, Data>, installed: Files, workspace: Files)

  /** The same without the cache. */
  datatype Plain = Plain(installed: Files, workspace: Files)

  const EMPTY := Disk(map[], map[], map[])

  /** "\n[System] Compiler process was terminated (timeout or signal)." */
  const NOTICE: Data := [10, 91, 83, 121, 115, 116, 101, 109, 93, 32, 67, 111, 109, 112, 105, 108, 101, 114, 32,
                         112, 114, 111, 99, 101, 115, 115, 32, 119, 97, 115, 32, 116, 101, 114, 109, 105, 110, 97,
                         116, 101, 100, 32, 40, 116, 105, 109, 101, 111, 117, 116, 32, 111, 114, 32, 115, 105, 103,
                         110, 97, 108, 41, 46]

  function KeyOf(hash: Hash, source: Data): Key { Key(hash(source), |source|) }

  predicate Cacheable(s: Strategy) { s.compiles && s.namesBinary }

  /** What a build of r finds in /tmp: the payload's files laid over what is there, and the
      source laid over those. */
  function InputOf(workspace: Files, r: Request): Input {
    Input(r.strategy, r.source, (workspace + r.files)[r.strategy.sourceFile := r.source])
  }

  /** The answer to a request tells how the compiler ended: success if it built something, and
      otherwise a failure, with its errors, or with its output and a notice. */
  predicate Reports(o: Outcome, success: bool, errors: Data) {
    && (success <==> o.Built?)
    && (o.Rejected? ==> errors == o.errors)
    && (o.Killed? ==> errors == o.output + NOTICE)
  }

  // ---------- the engine without a cache ----------

  function Install(installed: Files, artifact: Path, o: Outcome): Files {
    match o
    case Built(b) => installed[artifact := b]
    case Rejected(_, keeps) => if keeps then installed else installed - {artifact}
    case Killed(_, keeps) => if keeps then installed else installed - {artifact}
  }

  function ReplyTo(o: Outcome): Reply {
    match o
    case Built(_) => Reply(true, [])
    case Rejected(errors, _) => Reply(false, errors)
    case Killed(output, _) => Reply(false, output + NOTICE)
  }

  function PlainServe(c: Compiler, d: Plain, r: Request): Plain {
    if !r.strategy.compiles then d.(workspace := d.workspace + r.files)
    else
      var i := InputOf(d.workspace, r);
      Plain(Install(d.installed, r.strategy.artifact, c(i)), i.workspace)
  }

  function PlainReply(c: Compiler, d: Plain, r: Request): Reply {
    if !r.strategy.compiles then Reply(true, []) else ReplyTo(c(InputOf(d.workspace, r)))
  }

  // ---------- the engine with the cache ----------

  predicate Hit(hash: Hash, d: Disk, r: Request) {
    Cacheable(r.strategy) && KeyOf(hash, r.source) in d.cache
  }

  function CachedServe(c: Compiler, hash: Hash, d: Disk, r: Request): Disk {
    if !r.strategy.compiles then d.(workspace := d.workspace + r.files)
    else if Hit(hash, d, r) then
      d.(workspace := d.workspace + r.files,
         installed := d.installed[r.strategy.artifact := d.cache[KeyOf(hash, r.source)]])
    else
      var i := InputOf(d.workspace, r);
      var stores := Cacheable(r.strategy) && c(i).Built?;
      Disk(if stores then d.cache[KeyOf(hash, r.source) := c(i).binary] else d.cache,
           Install(d.installed, r.strategy.artifact, c(i)), i.workspace)
  }

  function CachedReply(c: Compiler, hash: Hash, d: Disk, r: Request): Reply {
    if !r.strategy.compiles || Hit(hash, d, r) then Reply(true, []) else ReplyTo(c(InputOf(d.workspace, r)))
  }

  lemma OneMoreFile(before: Files, files: Files, left: set<Path>, p: Path)
    requires p in left && left <= files.Keys
    ensures (before + (files - left))[p := files[p]] == before + (files - (left - {p}))
  {
    assert files - (left - {p}) == (files - left)[p := files[p]];
  }

  /** The engine's handlers and the strategy's `compile`, over /tmp. */
  class Engine {
    var cache: map<Key, Data>
    var installed: Files
    var workspace: Files
    const compiler: Compiler
    const hash: Hash

    constructor (compiler: Compiler, hash: Hash)
      ensures this.compiler == compiler && this.hash == hash
      ensures View() == EMPTY
    {
      cache, installed, workspace := map[], map[], map[];
      this.compiler, this.hash := compiler, hash;
    }

    function View(): Disk
      reads this
    {
      Disk(cache, installed, workspace)
    }

    /** `write_files`: one file after the other, in any order. */
    method WriteFiles(files: Files)
      modifies this`workspace
      ensures workspace == old(workspace) + files
    {
      var left := files.Keys;
      assert workspace == workspace + (files - left);
      while left != {}
        invariant left <= files.Keys
        invariant workspace == old(workspace) + (files - left)
        decreases |left|
      {
        var p :| p in left;
        OneMoreFile(old(workspace), files, left, p);
        left := left - {p};
        workspace := workspace[p := files[p]];
      }
      assert files - left == files;
    }

    /** `BaseStrategy::compile`, once the payload's files are in place.  An interpreted language and a
        hit succeed at once; otherwise the source is written, and the answer is the compiler's. */
    method CompileSource(s: Strategy, source: Data) returns (success: bool, errors: Data)
      modifies this
      ensures !s.compiles ==> success && View() == old(View())
      ensures Hit(hash, old(View()), Request(s, source, map[])) ==>
                && success && workspace == old(workspace)
                && installed == old(installed)[s.artifact := old(cache)[KeyOf(hash, source)]]
      ensures s.compiles && !Hit(hash, old(View()), Request(s, source, map[])) ==>
                && workspace == old(workspace)[s.sourceFile := source]
                && Reports(compiler(Input(s, source, workspace)), success, errors)
                && (success ==> s.artifact in installed
                                && compiler(Input(s, source, workspace)) == Built(installed[s.artifact]))
      ensures View() == CachedServe(compiler, hash, old(View()), Request(s, source, map[]))
      ensures Reply(success, errors) == CachedReply(compiler, hash, old(View()), Request(s, source, map[]))
    {
      assert workspace + map[] == workspace;
      errors := [];
      if !s.compiles {
        return true, errors;
      }
      if s.namesBinary {
        var key := KeyOf(hash, source);
        if key in cache {
          installed := installed[s.artifact := cache[key]];
          return true, errors;
        }
      }
      workspace := workspace[s.sourceFile := source];
      var outcome := compiler(Input(s, source, workspace));
      match outcome
      case Rejected(output, keeps) =>
        if !keeps {
          installed := installed - {s.artifact};
        }
        return false, output;
      case Killed(output, keeps) =>
        if !keeps {
          installed := installed - {s.artifact};
        }
        return false, output + NOTICE;
      case Built(binary) =>
        installed := installed[s.artifact := binary];
        if s.namesBinary {
          cache := cache[KeyOf(hash, source) := binary];
        }
        return true, errors;
    }

    /** Both handlers: the files first, then the build. */
    method Serve(r: Request) returns (success: bool, errors: Data)
      modifies this
      ensures View() == CachedServe(compiler, hash, old(View()), r)
      ensures Reply(success, errors) == CachedReply(compiler, hash, old(View()), r)
    {
      WriteFiles(r.files);
      assert workspace + map[] == workspace;
      success, errors := CompileSource(r.strategy, r.source);
    }
  }

  // ---------- runs ----------

  function RunCached(c: Compiler, hash: Hash, events: seq<Event>): Disk {
    if |events| == 0 then EMPTY
    else
      var d := RunCached(c, hash, events[..|events| - 1]);
      match events[|events| - 1]
      case Compile(r) => CachedServe(c, hash, d, r)
      case Write(path, data) => d.(workspace := d.workspace[path := data])
      case Remove(path) => d.(workspace := d.workspace - {path}, installed := d.installed - {path})
  }

  function RunPlain(c: Compiler, events: seq<Event>): Plain {
    if |events| == 0 then Plain(map[], map[])
    else
      var d := RunPlain(c, events[..|events| - 1]);
      match events[|events| - 1]
      case Compile(r) => PlainServe(c, d, r)
      case Write(path, data) => d.(workspace := d.workspace[path := data])
      case Remove(path) => Plain(d.installed - {path}, d.workspace - {path})
  }

  /** At every point of the run both engines have the same binaries installed and give the
      next request the same answer. */
  ghost predicate Refines(c: Compiler, hash: Hash, events: seq<Event>) {
    && (forall k :: 0 <= k <= |events| ==>
          RunCached(c, hash, events[..k]).installed == RunPlain(c, events[..k]).installed)
    && (forall k :: 0 <= k < |events| && events[k].Compile? ==>
          CachedReply(c, hash, RunCached(c, hash, events[..k]), events[k].request)
          == PlainReply(c, RunPlain(c, events[..k]), events[k].request))
  }

  // ---------- when the cache is transparent ----------

  /** What lies in /tmp without the cache; no compiler has a say in it. */
  function Workspace(events: seq<Event>): Files {
    if |events| == 0 then map[]
    else
      var w := Workspace(events[..|events| - 1]);
      match events[|events| - 1]
      case Compile(r) => if r.strategy.compiles then InputOf(w, r).workspace else w + r.files
      case Write(path, data) => w[path := data]
      case Remove(path) => w - {path}
  }

  /** What the k-th event builds from, without the cache. */
  function InputAt(events: seq<Event>, k: nat): Input
    requires k < |events| && events[k].Compile?
  {
    InputOf(Workspace(events[..k]), events[k].request)
  }

  predicate SameKey(hash: Hash, e: Event, f: Event) {
    && e.Compile? && f.Compile? && Cacheable(e.request.strategy) && Cacheable(f.request.strategy)
    && KeyOf(hash, e.request.source) == KeyOf(hash, f.request.source)
  }

  /** Two cacheable requests share a key only if they build from the same input. */
  ghost predicate KeysTellApart(hash: Hash, events: seq<Event>) {
    forall i, j :: 0 <= i < |events| && 0 <= j < |events| && SameKey(hash, events[i], events[j]) ==>
      InputAt(events, i) == InputAt(events, j)
  }

  predicate Asked(hash: Hash, past: seq<Event>, r: Request) {
    exists i :: 0 <= i < |past| && SameKey(hash, past[i], Compile(r))
  }

  /** The request is a hit, if just the builds of the keys in `failing` fail. */
  predicate Skips(hash: Hash, failing: set<Key>, past: seq<Event>, r: Request) {
    Cacheable(r.strategy) && KeyOf(hash, r.source) !in failing && Asked(hash, past, r)
  }

  /** What lies in /tmp with the cache, if just the builds of the keys in `failing` fail: a hit
      leaves the source file as it is. */
  function Skipping(hash: Hash, failing: set<Key>, events: seq<Event>): Files {
    if |events| == 0 then map[]
    else
      var past := events[..|events| - 1];
      var w := Skipping(hash, failing, past);
      match events[|events| - 1]
      case Compile(r) =>
        if r.strategy.compiles && !Skips(hash, failing, past, r) then InputOf(w, r).workspace else w + r.files
      case Write(path, data) => w[path := data]
      case Remove(path) => w - {path}
  }

  /** If request k is built at all, it is built from what it would be built from without the
      cache: no source file that a hit has left unwritten makes a difference. */
  predicate SeesTheSame(hash: Hash, failing: set<Key>, events: seq<Event>, k: nat)
    requires k < |events|
  {
    && events[k].Compile? && events[k].request.strategy.compiles
    && !Skips(hash, failing, events[..k], events[k].request) ==>
      InputOf(Skipping(hash, failing, events[..k]), events[k].request) == InputAt(events, k)
  }

  ghost predicate NothingMissed(hash: Hash, events: seq<Event>) {
    forall failing: set<Key>, k: nat :: k < |events| ==> SeesTheSame(hash, failing, events, k)
  }

  lemma {:induction false} PlainWorkspace(c: Compiler, events: seq<Event>)
    ensures RunPlain(c, events).workspace == Workspace(events)
    decreases |events|
  {
    if |events| > 0 {
      PlainWorkspace(c, events[..|events| - 1]);
    }
  }

  lemma AskedMore(hash: Hash, past: seq<Event>, e: Event, r: Request)
    ensures Asked(hash, past + [e], r) <==> Asked(hash, past, r) || SameKey(hash, e, Compile(r))
  {
    var more := past + [e];
    assert more[|past|] == e;
    if Asked(hash, past, r) {
      var i :| 0 <= i < |past| && SameKey(hash, past[i], Compile(r));
      assert more[i] == past[i];
    }
  }

  // ---------- failed builds stay out ----------

  /** The i-th event is a request from which the compiler built b. */
  ghost predicate BuiltAt(c: Compiler, hash: Hash, events: seq<Event>, i: int, b: Data) {
    && 0 <= i < |events| && events[i].Compile?
    && c(InputOf(RunCached(c, hash, events[..i]).workspace, events[i].request)) == Built(b)
  }

  /** Entry `key` was built by an earlier request of a source with that hash and length. */
  ghost predicate BuiltBy(c: Compiler, hash: Hash, events: seq<Event>, key: Key, b: Data, i: int) {
    && BuiltAt(c, hash, events, i, b)
    && Cacheable(events[i].request.strategy)
    && KeyOf(hash, events[i].request.source) == key
  }

  /** Failed builds never enter the cache: every entry is the output of a successful earlier
      build of a source with that hash and length. */
  lemma {:induction false} EntriesAreBuilds(c: Compiler, hash: Hash, events: seq<Event>, key: Key)
    requires key in RunCached(c, hash, events).cache
    ensures exists i :: BuiltBy(c, hash, events, key, RunCached(c, hash, events).cache[key], i)
    decreases |events|
  {
    var n := |events| - 1;
    var d, after := RunCached(c, hash, events[..n]), RunCached(c, hash, events);
    if key in d.cache && after.cache[key] == d.cache[key] {
      EntriesAreBuilds(c, hash, events[..n], key);
      var i :| BuiltBy(c, hash, events[..n], key, d.cache[key], i);
      assert events[..n][..i] == events[..i];
      assert BuiltBy(c, hash, events, key, after.cache[key], i);
    } else {
      assert BuiltBy(c, hash, events, key, after.cache[key], n);
    }
  }

  lemma {:induction false} EntriesStay(c: Compiler, hash: Hash, events: seq<Event>, k: nat, key: Key)
    requires k <= |events| && key in RunCached(c, hash, events[..k]).cache
    ensures key in RunCached(c, hash, events).cache
    ensures RunCached(c, hash, events).cache[key] == RunCached(c, hash, events[..k]).cache[key]
    decreases |events|
  {
    if k == |events| {
      assert events[..k] == events;
    } else {
      assert events[..|events| - 1][..k] == events[..k];
      EntriesStay(c, hash, events[..|events| - 1], k, key);
    }
  }

  // ---------- what a reply tells ----------

  /** Whatever happened before: a request that is built is answered as its compiler ended, and with
      a failure whenever that did not build a binary. */
  lemma ReplyIsOutcome(c: Compiler, hash: Hash, past: seq<Event>, r: Request)
    requires r.strategy.compiles && !Hit(hash, RunCached(c, hash, past), r)
    ensures var d := RunCached(c, hash, past);
            var found := (d.workspace + r.files)[r.strategy.sourceFile := r.source];
            var reply := CachedReply(c, hash, d, r);
            Reports(c(Input(r.strategy, r.source, found)), reply.success, reply.errors)
  {
  }

  /** After a request answered with success its binary is installed, and some request up to it,
      with the same hash and length of its source, has built it. */
  lemma SuccessIsInstalled(c: Compiler, hash: Hash, past: seq<Event>, r: Request)
    requires r.strategy.compiles && CachedReply(c, hash, RunCached(c, hash, past), r).success
    ensures var events := past + [Compile(r)];
            var installed := RunCached(c, hash, events).installed;
            && r.strategy.artifact in installed
            && exists i :: 0 <= i < |events| && BuiltAt(c, hash, events, i, installed[r.strategy.artifact])
                           && (i < |past| ==> SameKey(hash, events[i], Compile(r)))
  {
    var events, n := past + [Compile(r)], |past|;
    assert events[..n] == past;
    var d := RunCached(c, hash, past);
    var installed := RunCached(c, hash, events).installed;
    if Hit(hash, d, r) {
      EntriesAreBuilds(c, hash, past, KeyOf(hash, r.source));
      var i :| BuiltBy(c, hash, past, KeyOf(hash, r.source), installed[r.strategy.artifact], i);
      assert events[..i] == past[..i];
      assert BuiltAt(c, hash, events, i, installed[r.strategy.artifact]);
    } else {
      assert BuiltAt(c, hash, events, n, installed[r.strategy.artifact]);
    }
  }

  // ---------- the condition suffices ----------

  /** The keys whose builds fail. */
  ghost function FailingKeys(c: Compiler, hash: Hash, events: seq<Event>): set<Key> {
    set i | 0 <= i < |events| && FailsAt(c, events, i) :: KeyOf(hash, events[i].request.source)
  }

  predicate FailsAt(c: Compiler, events: seq<Event>, i: int) {
    && 0 <= i < |events| && events[i].Compile? && Cacheable(events[i].request.strategy)
    && !c(InputAt(events, i)).Built?
  }

  lemma FailingIs(c: Compiler, hash: Hash, events: seq<Event>, i: nat)
    requires KeysTellApart(hash, events) && i < |events| && events[i].Compile?
    requires Cacheable(events[i].request.strategy)
    ensures KeyOf(hash, events[i].request.source) in FailingKeys(c, hash, events) <==> !c(InputAt(events, i)).Built?
  {
    if KeyOf(hash, events[i].request.source) in FailingKeys(c, hash, events) {
      var j :|
        0 <= j < |events| && FailsAt(c, events, j)
        && KeyOf(hash, events[j].request.source) == KeyOf(hash, events[i].request.source);
      assert SameKey(hash, events[i], events[j]);
    } else {
      assert !FailsAt(c, events, i);
    }
  }

  /** The cache holds the builds of all requests so far but the failing ones. */
  ghost predicate CacheIs(c: Compiler, hash: Hash, events: seq<Event>, k: nat, d: Disk)
    requires k <= |events|
  {
    && (forall r: Request :: Hit(hash, d, r) <==> Skips(hash, FailingKeys(c, hash, events), events[..k], r))
    && (forall i :: 0 <= i < |events| && events[i].Compile? && Hit(hash, d, events[i].request) ==>
          c(InputAt(events, i)) == Built(d.cache[KeyOf(hash, events[i].request.source)]))
  }

  ghost predicate InStep(c: Compiler, hash: Hash, events: seq<Event>, k: nat)
    requires k <= |events|
  {
    var d, p := RunCached(c, hash, events[..k]), RunPlain(c, events[..k]);
    && d.installed == p.installed
    && d.workspace == Skipping(hash, FailingKeys(c, hash, events), events[..k])
    && CacheIs(c, hash, events, k, d)
  }

  /** A request answered in step: by the entry, which is right, or by the same build. */
  lemma SameAnswer(c: Compiler, hash: Hash, events: seq<Event>, k: nat)
    requires KeysTellApart(hash, events) && NothingMissed(hash, events)
    requires k < |events| && events[k].Compile? && InStep(c, hash, events, k)
    ensures var d, p, r := RunCached(c, hash, events[..k]), RunPlain(c, events[..k]), events[k].request;
            && CachedReply(c, hash, d, r) == PlainReply(c, p, r)
            && InputOf(p.workspace, r) == InputAt(events, k)
            && (r.strategy.compiles && !Hit(hash, d, r) ==> InputOf(d.workspace, r) == InputAt(events, k))
            && CachedServe(c, hash, d, r).installed == PlainServe(c, p, r).installed
  {
    PlainWorkspace(c, events[..k]);
    assert SeesTheSame(hash, FailingKeys(c, hash, events), events, k);
    hide RunCached, RunPlain, Skips, Skipping, FailingKeys, KeysTellApart;
  }

  lemma StepKeepsCache(c: Compiler, hash: Hash, events: seq<Event>, k: nat)
    requires KeysTellApart(hash, events) && NothingMissed(hash, events)
    requires k < |events| && events[k].Compile? && InStep(c, hash, events, k)
    ensures CacheIs(c, hash, events, k + 1, CachedServe(c, hash, RunCached(c, hash, events[..k]), events[k].request))
  {
    var d, q := RunCached(c, hash, events[..k]), events[k].request;
    var after := CachedServe(c, hash, d, q);
    SameAnswer(c, hash, events, k);
    assert events[..k + 1] == events[..k] + [events[k]];
    if Cacheable(q.strategy) {
      FailingIs(c, hash, events, k);
    }
    hide RunCached, RunPlain, FailingKeys, Skipping, NothingMissed, InputAt;
    forall r: Request
      ensures Hit(hash, after, r) <==> Skips(hash, FailingKeys(c, hash, events), events[..k + 1], r)
    {
      AskedMore(hash, events[..k], events[k], r);
      hide Asked;
      assert Hit(hash, d, r) <==> Skips(hash, FailingKeys(c, hash, events), events[..k], r);
      assert Hit(hash, d, q) <==> Skips(hash, FailingKeys(c, hash, events), events[..k], q);
    }
    forall i | 0 <= i < |events| && events[i].Compile? && Hit(hash, after, events[i].request)
      ensures c(InputAt(events, i)) == Built(after.cache[KeyOf(hash, events[i].request.source)])
    {
      assert SameKey(hash, events[i], events[k]) ==> InputAt(events, i) == InputAt(events, k);
    }
  }

  lemma {:induction false} StaysInStep(c: Compiler, hash: Hash, events: seq<Event>, k: nat)
    requires KeysTellApart(hash, events) && NothingMissed(hash, events) && k <= |events|
    ensures InStep(c, hash, events, k)
    decreases k
  {
    if k > 0 {
      var n := k - 1;
      StaysInStep(c, hash, events, n);
      assert events[..k][..n] == events[..n];
      match events[n] {
        case Compile(r) =>
          SameAnswer(c, hash, events, n);
          StepKeepsCache(c, hash, events, n);
        case _ =>
          assert events[..k] == events[..n] + [events[n]];
          var failing := FailingKeys(c, hash, events);
          forall r: Request
            ensures Skips(hash, failing, events[..k], r) <==> Skips(hash, failing, events[..n], r)
          {
            AskedMore(hash, events[..n], events[n], r);
          }
      }
    } else {
      assert events[..0] == [];
    }
  }

  lemma ConditionSuffices(c: Compiler, hash: Hash, events: seq<Event>)
    requires KeysTellApart(hash, events) && NothingMissed(hash, events)
    ensures Refines(c, hash, events)
  {
    forall k | 0 <= k <= |events|
      ensures RunCached(c, hash, events[..k]).installed == RunPlain(c, events[..k]).installed
    {
      StaysInStep(c, hash, events, k);
    }
    forall k | 0 <= k < |events| && events[k].Compile?
      ensures CachedReply(c, hash, RunCached(c, hash, events[..k]), events[k].request)
              == PlainReply(c, RunPlain(c, events[..k]), events[k].request)
    {
      StaysInStep(c, hash, events, k);
      SameAnswer(c, hash, events, k);
    }
  }

  // ---------- the condition is needed ----------

  /** A compiler that tells one input from all others, and rejects just the sources whose keys
      are in `failing`. */
  function Telling(hash: Hash, failing: set<Key>, special: Input): Compiler {
    (i: Input) =>
      var mark: Data := if i == special then [0] else [1];
      if KeyOf(hash, i.source) in failing then Rejected(mark, true) else Built(mark)
  }

  lemma DiffersAt(c: Compiler, hash: Hash, events: seq<Event>, k: nat)
    requires k <= |events| && RunCached(c, hash, events[..k]).installed != RunPlain(c, events[..k]).installed
    ensures !Refines(c, hash, events)
  {
  }

  lemma AnswersDiffer(c: Compiler, hash: Hash, events: seq<Event>, k: nat)
    requires k < |events| && events[k].Compile?
    requires CachedReply(c, hash, RunCached(c, hash, events[..k]), events[k].request)
             != PlainReply(c, RunPlain(c, events[..k]), events[k].request)
    ensures !Refines(c, hash, events)
  {
  }

  /** One request to both engines, when no build fails. */
  lemma TellingBuild(special: Input, hash: Hash, events: seq<Event>, k: nat)
    requires k < |events| && events[k].Compile? && Cacheable(events[k].request.strategy)
    ensures var c, r := Telling(hash, {}, special), events[k].request;
            var d, after, plain := RunCached(c, hash, events[..k]), RunCached(c, hash, events[..k + 1]),
              RunPlain(c, events[..k + 1]);
            var key, artifact := KeyOf(hash, r.source), r.strategy.artifact;
            && artifact in after.installed && key in after.cache && after.installed[artifact] == after.cache[key]
            && (key in d.cache ==> after.cache[key] == d.cache[key])
            && artifact in plain.installed && c(InputAt(events, k)) == Built(plain.installed[artifact])
  {
    assert events[..k + 1][..k] == events[..k];
    PlainWorkspace(Telling(hash, {}, special), events[..k]);
  }

  lemma SharedKeyBreaks(hash: Hash, events: seq<Event>, i: nat, j: nat)
    requires i < j < |events| && SameKey(hash, events[i], events[j]) && InputAt(events, i) != InputAt(events, j)
    ensures !Refines(Telling(hash, {}, InputAt(events, i)), hash, events)
  {
    var c, key := Telling(hash, {}, InputAt(events, i)), KeyOf(hash, events[i].request.source);
    TellingBuild(InputAt(events, i), hash, events, i);
    TellingBuild(InputAt(events, i), hash, events, j);
    assert events[..j][..i + 1] == events[..i + 1];
    EntriesStay(c, hash, events[..j], i + 1, key);
    hide RunCached, RunPlain, InputAt;
    if RunCached(c, hash, events[..i + 1]).installed != RunPlain(c, events[..i + 1]).installed {
      DiffersAt(c, hash, events, i + 1);
    } else {
      DiffersAt(c, hash, events, j + 1);
    }
  }

  /** With that compiler, the cached engine skips just what `Skips` says. */
  lemma {:induction false} TellingSkips(special: Input, hash: Hash, failing: set<Key>, events: seq<Event>)
    ensures var d := RunCached(Telling(hash, failing, special), hash, events);
            && d.workspace == Skipping(hash, failing, events)
            && forall r: Request :: Hit(hash, d, r) <==> Skips(hash, failing, events, r)
    decreases |events|
  {
    if |events| > 0 {
      var c, past, e := Telling(hash, failing, special), events[..|events| - 1], events[|events| - 1];
      TellingSkips(special, hash, failing, past);
      var d, after := RunCached(c, hash, past), RunCached(c, hash, events);
      assert events == past + [e];
      assert e.Compile? ==> (Hit(hash, d, e.request) <==> Skips(hash, failing, past, e.request));
      forall r: Request
        ensures Hit(hash, after, r) <==> Skips(hash, failing, events, r)
      {
        AskedMore(hash, past, e, r);
        hide Asked;
        assert Hit(hash, d, r) <==> Skips(hash, failing, past, r);
      }
    }
  }

  lemma MissedSourceBreaks(hash: Hash, failing: set<Key>, events: seq<Event>, k: nat)
    requires k < |events| && !SeesTheSame(hash, failing, events, k)
    ensures !Refines(Telling(hash, failing, InputAt(events, k)), hash, events)
  {
    var c, r := Telling(hash, failing, InputAt(events, k)), events[k].request;
    TellingSkips(InputAt(events, k), hash, failing, events[..k]);
    PlainWorkspace(c, events[..k]);
    assert !Hit(hash, RunCached(c, hash, events[..k]), r);
    assert events[..k + 1][..k] == events[..k];
    if KeyOf(hash, r.source) in failing {
      AnswersDiffer(c, hash, events, k);
    } else {
      var artifact := r.strategy.artifact;
      assert RunCached(c, hash, events[..k + 1]).installed[artifact] == [1];
      assert RunPlain(c, events[..k + 1]).installed[artifact] == [0];
      DiffersAt(c, hash, events, k + 1);
    }
  }

  /** The exact condition.  Whatever the compiler, the cached engine cannot be told from the
      plain one just when all cacheable requests with the same hash and length build from the
      same language, source and files, and no build, whichever of them fail, meets a source file
      that a hit has left unwritten. */
  lemma CacheTheorem(hash: Hash, events: seq<Event>)
    ensures (forall c: Compiler :: Refines(c, hash, events)) <==>
            KeysTellApart(hash, events) && NothingMissed(hash, events)
  {
    if !KeysTellApart(hash, events) {
      var i, j :|
        && 0 <= i < |events| && 0 <= j < |events|
        && SameKey(hash, events[i], events[j]) && InputAt(events, i) != InputAt(events, j);
      SharedKeyBreaks(hash, events, if i < j then i else j, if i < j then j else i);
    } else if !NothingMissed(hash, events) {
      var failing: set<Key>, k: nat :| k < |events| && !SeesTheSame(hash, failing, events, k);
      MissedSourceBreaks(hash, failing, events, k);
    } else {
      forall c: Compiler
        ensures Refines(c, hash, events)
      {
        ConditionSuffices(c, hash, events);
      }
    }
  }

  // ---------- what that means ----------

  /** With one strategy, a source file left unwritten is overwritten before anybody reads it. */
  lemma {:induction false} SameElsewhere(hash: Hash, failing: set<Key>, events: seq<Event>, s: Strategy)
    requires forall e :: e in events && e.Compile? ==> e.request.strategy == s
    ensures Skipping(hash, failing, events) - {s.sourceFile} == Workspace(events) - {s.sourceFile}
    decreases |events|
  {
    if |events| > 0 {
      var past, e := events[..|events| - 1], events[|events| - 1];
      assert e in events;
      SameElsewhere(hash, failing, past, s);
      var v, w := Skipping(hash, failing, past), Workspace(past);
      SameBesides(v, w, s.sourceFile);
      SameBesides(Skipping(hash, failing, events), Workspace(events), s.sourceFile);
      hide Skips;
    }
  }

  /** Two directories that agree but for one file. */
  lemma SameBesides(v: Files, w: Files, own: Path)
    ensures v - {own} == w - {own} <==>
            forall q :: q != own ==> (q in v <==> q in w) && (q in v && q in w ==> v[q] == w[q])
  {
    if v - {own} == w - {own} {
      forall q | q != own
        ensures (q in v <==> q in w) && (q in v && q in w ==> v[q] == w[q])
      {
        assert q in v <==> q in v - {own};
        assert q in w <==> q in w - {own};
      }
    }
  }

  lemma OneStrategyMissesNothing(hash: Hash, events: seq<Event>, s: Strategy)
    requires forall e :: e in events && e.Compile? ==> e.request.strategy == s
    ensures NothingMissed(hash, events)
  {
    forall failing: set<Key>, k: nat | k < |events|
      ensures SeesTheSame(hash, failing, events, k)
    {
      SameElsewhere(hash, failing, events[..k], s);
      SameBesides(Skipping(hash, failing, events[..k]), Workspace(events[..k]), s.sourceFile);
      hide Skipping, Workspace, Skips;
      if events[k].Compile? {
        var r, v, w := events[k].request, Skipping(hash, failing, events[..k]), Workspace(events[..k]);
        assert events[k] in events;
        assert InputOf(v, r).workspace == InputOf(w, r).workspace;
      }
    }
  }

  /** One strategy, (hash, length) injective on its sources, and the same files in /tmp whenever
      a source comes again: the cache is transparent. */
  lemma OneStrategyIsTransparent(c: Compiler, hash: Hash, events: seq<Event>, s: Strategy)
    requires forall e :: e in events && e.Compile? ==> e.request.strategy == s
    requires forall i, j :: 0 <= i < |events| && 0 <= j < |events| && SameKey(hash, events[i], events[j]) ==>
               && events[i].request.source == events[j].request.source
               && Workspace(events[..i + 1]) == Workspace(events[..j + 1])
    ensures Refines(c, hash, events)
  {
    forall k | 0 <= k < |events| && events[k].Compile? && Cacheable(events[k].request.strategy)
      ensures InputAt(events, k).workspace == Workspace(events[..k + 1])
    {
      assert events[..k + 1][..k] == events[..k];
    }
    OneStrategyMissesNothing(hash, events, s);
    assert KeysTellApart(hash, events) by {
      hide InputAt, NothingMissed, Workspace;
      forall i, j | 0 <= i < |events| && 0 <= j < |events| && SameKey(hash, events[i], events[j])
        ensures InputAt(events, i) == InputAt(events, j)
      {
        SameStrategy(events, i);
        SameStrategy(events, j);
        assert events[i] in events && events[j] in events;
      }
    }
    ConditionSuffices(c, hash, events);
  }

  lemma SameStrategy(events: seq<Event>, k: nat)
    requires k < |events| && events[k].Compile?
    ensures InputAt(events, k).strategy == events[k].request.strategy
    ensures InputAt(events, k).source == events[k].request.source
  {
  }

  /** Without payload files, one strategy and injective keys are enough. */
  lemma NoFilesIsTransparent(c: Compiler, hash: Hash, events: seq<Event>, s: Strategy)
    requires forall e :: e in events && e.Compile? ==> e.request.strategy == s && e.request.files == map[]
    requires forall e :: e in events ==> !e.Write?
    requires forall d, e :: d in events && e in events && SameKey(hash, d, e) ==> d.request.source == e.request.source
    ensures Refines(c, hash, events)
  {
    OneStrategyMissesNothing(hash, events, s);
    forall k | 0 <= k < |events| && events[k].Compile?
      ensures InputAt(events, k).workspace == map[s.sourceFile := events[k].request.source]
    {
      assert events[k] in events;
      OnlyTheSource(events[..k], s);
      SameBesides(Workspace(events[..k]), map[], s.sourceFile);
    }
    hide NothingMissed;
    forall i, j | 0 <= i < |events| && 0 <= j < |events| && SameKey(hash, events[i], events[j])
      ensures InputAt(events, i) == InputAt(events, j)
    {
      assert events[i] in events && events[j] in events;
    }
    ConditionSuffices(c, hash, events);
  }

  lemma {:induction false} OnlyTheSource(events: seq<Event>, s: Strategy)
    requires forall e :: e in events && e.Compile? ==> e.request.strategy == s && e.request.files == map[]
    requires forall e :: e in events ==> !e.Write?
    ensures Workspace(events) - {s.sourceFile} == map[]
    decreases |events|
  {
    if |events| > 0 {
      var past := events[..|events| - 1];
      OnlyTheSource(past, s);
      assert events[|events| - 1] in events;
      SameBesides(Workspace(past), map[], s.sourceFile);
      SameBesides(Workspace(events), map[], s.sourceFile);
    }
  }

  lemma PairInputs(r: Request, q: Request)
    ensures var events := [Compile(r), Compile(q)];
            && InputAt(events, 0) == InputOf(map[], r)
            && (r.strategy.compiles ==> InputAt(events, 1) == InputOf(InputOf(map[], r).workspace, q))
  {
    var events := [Compile(r), Compile(q)];
    assert events[..0] == [] && events[..1] == [Compile(r)] && events[..1][..0] == [];
  }

  /** Two strategies compiling one source always collide: the key ignores the language. */
  lemma TwoStrategiesCollide(hash: Hash, s: Strategy, t: Strategy, source: Data, f: Files, g: Files)
    requires s != t && Cacheable(s) && Cacheable(t)
    ensures exists c: Compiler :: !Refines(c, hash, [Compile(Request(s, source, f)), Compile(Request(t, source, g))])
  {
    PairInputs(Request(s, source, f), Request(t, source, g));
    SharedKeyBreaks(hash, [Compile(Request(s, source, f)), Compile(Request(t, source, g))], 0, 1);
  }

  /** The second payload changes a file besides the source. */
  predicate Changes(own: Path, f: Files, g: Files) {
    exists q :: q in g && q != own && (q !in f || f[q] != g[q])
  }

  /** One strategy and one source with two sets of files: the second build is wrong for some
      compiler exactly if its files change anything in /tmp besides the source.  The key ignores
      the files. */
  lemma TwoFileSetsCollide(hash: Hash, s: Strategy, source: Data, f: Files, g: Files)
    requires Cacheable(s)
    ensures (exists c: Compiler :: !Refines(c, hash, [Compile(Request(s, source, f)), Compile(Request(s, source, g))]))
            <==> Changes(s.sourceFile, f, g)
  {
    var r, q := Request(s, source, f), Request(s, source, g);
    var events := [Compile(r), Compile(q)];
    PairInputs(r, q);
    ChangesInput(r, q);
    if Changes(s.sourceFile, f, g) {
      SharedKeyBreaks(hash, events, 0, 1);
    } else {
      assert KeysTellApart(hash, events) by {
        hide InputAt, InputOf;
      }
      OneStrategyMissesNothing(hash, events, s);
      CacheTheorem(hash, events);
    }
  }

  lemma ChangesInput(r: Request, q: Request)
    requires q.strategy == r.strategy && q.source == r.source
    ensures InputOf(InputOf(map[], r).workspace, q) != InputOf(map[], r) <==>
            Changes(r.strategy.sourceFile, r.files, q.files)
  {
    var own, first, second := r.strategy.sourceFile, InputOf(map[], r).workspace,
      InputOf(InputOf(map[], r).workspace, q).workspace;
    if Changes(own, r.files, q.files) {
      var p :| p in q.files && p != own && (p !in r.files || r.files[p] != q.files[p]);
      assert p in second && (p !in first || first[p] != second[p]);
    } else {
      assert first == second;
    }
  }

  /** What a hit leaves undone: one language is sent source a, source b, and a again; then another
      language is built, whose compiler may read the first one's source file.  It should find a,
      and finds b. */
  lemma HitLeavesOldSource(hash: Hash, s: Strategy, t: Strategy, a: Data, b: Data, source: Data)
    requires Cacheable(s) && t.compiles && t.sourceFile != s.sourceFile && KeyOf(hash, a) != KeyOf(hash, b)
    ensures exists c: Compiler ::
              !Refines(c, hash, [Compile(Request(s, a, map[])), Compile(Request(s, b, map[])),
                                 Compile(Request(s, a, map[])), Compile(Request(t, source, map[]))])
  {
    var ra, rb, rt := Request(s, a, map[]), Request(s, b, map[]), Request(t, source, map[]);
    var events := [Compile(ra), Compile(rb), Compile(ra), Compile(rt)];
    FourthInput(hash, ra, rb, rt);
    FourthDiffers(hash, events);
    CacheTheorem(hash, events);
  }

  /** A request that would be built from something else, or else shares its key with another
      language. */
  lemma FourthDiffers(hash: Hash, events: seq<Event>)
    requires |events| == 4 && events[3].Compile? && events[3].request.strategy.compiles
    requires forall i :: 0 <= i < 3 ==> events[i].Compile? && events[i].request.strategy != events[3].request.strategy
    requires InputOf(Skipping(hash, {}, events[..3]), events[3].request) != InputAt(events, 3)
    ensures !(KeysTellApart(hash, events) && NothingMissed(hash, events))
  {
    hide Skipping, Workspace, InputOf;
    if Skips(hash, {}, events[..3], events[3].request) {
      var i :| 0 <= i < 3 && SameKey(hash, events[..3][i], Compile(events[3].request));
      assert SameKey(hash, events[i], events[3]);
      SameStrategy(events, i);
      SameStrategy(events, 3);
    } else {
      assert !SeesTheSame(hash, {}, events, 3);
    }
  }

  lemma WorkspaceMore(past: seq<Event>, r: Request)
    requires r.strategy.compiles
    ensures Workspace(past + [Compile(r)]) == InputOf(Workspace(past), r).workspace
  {
    assert (past + [Compile(r)])[..|past|] == past;
  }

  lemma SkippingMore(hash: Hash, failing: set<Key>, past: seq<Event>, r: Request)
    requires r.strategy.compiles
    ensures Skipping(hash, failing, past + [Compile(r)]) ==
            if Skips(hash, failing, past, r) then Skipping(hash, failing, past) + r.files
            else InputOf(Skipping(hash, failing, past), r).workspace
  {
    assert (past + [Compile(r)])[..|past|] == past;
  }

  lemma FourthInput(hash: Hash, ra: Request, rb: Request, rt: Request)
    requires Cacheable(ra.strategy) && rb.strategy == ra.strategy && ra.files == rb.files == rt.files == map[]
    requires KeyOf(hash, ra.source) != KeyOf(hash, rb.source) && rt.strategy.sourceFile != ra.strategy.sourceFile
    ensures var events := [Compile(ra), Compile(rb), Compile(ra), Compile(rt)];
            InputOf(Skipping(hash, {}, events[..3]), rt) != InputAt(events, 3)
  {
    var events := [Compile(ra), Compile(rb), Compile(ra), Compile(rt)];
    var none: seq<Event>, one, two := [], [Compile(ra)], [Compile(ra), Compile(rb)];
    var own := ra.strategy.sourceFile;
    assert one == none + [Compile(ra)] && two == one + [Compile(rb)] && events[..3] == two + [Compile(ra)];
    assert !Skips(hash, {}, none, ra) && !Skips(hash, {}, one, rb);
    assert SameKey(hash, two[0], Compile(ra)) && Skips(hash, {}, two, ra);
    assert Workspace(none) == Skipping(hash, {}, none) == map[];
    WorkspaceMore(none, ra);
    WorkspaceMore(one, rb);
    WorkspaceMore(two, ra);
    SkippingMore(hash, {}, none, ra);
    SkippingMore(hash, {}, one, rb);
    SkippingMore(hash, {}, two, ra);
    hide Workspace, Skipping, Skips;
    var v, w := Skipping(hash, {}, events[..3]), Workspace(events[..3]);
    assert own in v && v[own] == rb.source && own in w && w[own] == ra.source;
    assert InputOf(v, rt).workspace[own] != InputOf(w, rt).workspace[own];
  }
}
