/** The deployment-context registry of core.js: the context record, the id
    derived from (uri, branch, mode), the persisted file and the pure rules
    that `resolve`, `available` and `ecosystem` follow. The state-changing
    operations live on `Core.Orchestrator`. */
module Registry {
  import opened Values

  /** A per-branch configuration file, seen as an abstract lookup from a key
      path (`preferPort.branch.master`, `env.mode.test@start`, ...) to the
      value stored there. */
  type Config = map<string, Value>

  /** What `selectn(path, config)` yields: the stored value, or `undefined`. */
  function Lookup(config: Config, path: string): (v: Value)
    ensures path !in config ==> v == Undefined
    ensures path in config ==> v == config[path]
  {
    if path in config then config[path] else Undefined
  }

  /** One deployment context: the fields `resolve` creates and the fields
      `configuration` adds. `config` is the process-local cache, never
      written to the registry file. */
  datatype Context = Context(
    id: string,
    folder: string,
    uri: string,
    branch: string,
    mode: string,
    cwd: string,
    dir: string,
    port: int,
    commit: Option<string>,
    scale: int,
    instances: Value,
    execMode: Value,
    config: Option<Config>)

  /** The module configuration (`conf` in core.js) that the registry reads:
      the port range, the instance cap, the repository root and the host's
      CPU count. */
  datatype Settings = Settings(
    start: int,
    end: int,
    maxInstances: Option<int>,
    cpus: nat,
    reposDir: string)

  /** The characters `[a-zA-Z0-9-]` that survive the id sanitiser. */
  predicate IdChar(c: char) {
    ('a' <= c <= 'z') || ('A' <= c <= 'Z') || ('0' <= c <= '9') || c == '-'
  }

  /** `s.replace(/[^a-zA-Z0-9\-]/g, '')`. */
  function Sanitize(s: string): (r: string)
    ensures |r| <= |s|
    ensures forall i :: 0 <= i < |r| ==> IdChar(r[i])
  {
    if s == [] then []
    else if IdChar(s[|s| - 1]) then Sanitize(s[..|s| - 1]) + [s[|s| - 1]]
    else Sanitize(s[..|s| - 1])
  }

  /** Sanitising a concatenation sanitises each part. */
  lemma {:induction false} SanitizeAppend(a: string, b: string)
    ensures Sanitize(a + b) == Sanitize(a) + Sanitize(b)
    decreases |b|
  {
    if b != [] {
      var b' := b[..|b| - 1];
      assert (a + b)[..|a + b| - 1] == a + b';
      assert (a + b)[|a + b| - 1] == b[|b| - 1];
      SanitizeAppend(a, b');
    } else {
      assert a + b == a;
    }
  }

  /** The sanitiser keeps exactly the id characters, in order: it changes
      nothing in a string made only of them. */
  lemma {:induction false} SanitizeKeepsIdChars(s: string)
    requires forall i :: 0 <= i < |s| ==> IdChar(s[i])
    ensures Sanitize(s) == s
  {
    if s != [] {
      SanitizeKeepsIdChars(s[..|s| - 1]);
      assert s[..|s| - 1] + [s[|s| - 1]] == s;
    }
  }

  /** Sanitising is idempotent. */
  lemma SanitizeIdempotent(s: string)
    ensures Sanitize(Sanitize(s)) == Sanitize(s)
  {
    SanitizeKeepsIdChars(Sanitize(s));
  }

  /** The registry key and checkout folder of (uri, branch, mode). */
  function ContextId(uri: string, branch: string, mode: string): (id: string)
    ensures forall i :: 0 <= i < |id| ==> IdChar(id[i])
    ensures id == Sanitize(uri) + Sanitize(branch) + Sanitize(mode)
  {
    SanitizeAppend(uri, branch);
    SanitizeAppend(uri + branch, mode);
    Sanitize(uri + branch + mode)
  }

  /** A staging context never shares its id with the release context of the
      same (uri, branch): the id of mode "test" is four characters longer. */
  lemma StagingIdDiffers(uri: string, branch: string)
    ensures ContextId(uri, branch, "test") != ContextId(uri, branch, "")
  {
    assert Sanitize("test") == "test" by { SanitizeKeepsIdChars("test"); }
    assert Sanitize("") == "";
    assert |ContextId(uri, branch, "test")| == |ContextId(uri, branch, "")| + 4;
  }

  /** Ids are not unique per triple: the release context of branch
      "footest" and the staging context of branch "foo" share one id. */
  lemma IdsCollideAcrossModes()
    ensures ContextId("u", "footest", "") == ContextId("u", "foo", "test")
  {
    SanitizeKeepsIdChars("u");
    SanitizeKeepsIdChars("footest");
    SanitizeKeepsIdChars("foo");
    SanitizeKeepsIdChars("test");
    assert Sanitize("") == "";
    assert "u" + "footest" + "" == "u" + "foo" + "test";
  }

  /** Branches that differ only in characters the sanitiser drops share an
      id too: "feature/x" and "featurex". */
  lemma IdsCollideOnDroppedChars()
    ensures ContextId("u", "feature/x", "") == ContextId("u", "featurex", "")
  {
    SanitizeKeepsIdChars("featurex");
    SanitizeKeepsIdChars("feature");
    SanitizeKeepsIdChars("x");
    assert "feature" + "/x" == "feature/x";
    assert "/" + "x" == "/x";
    SanitizeAppend("feature", "/x");
    SanitizeAppend("/", "x");
    assert Sanitize("/") == [];
    assert "feature" + "x" == "featurex";
  }

  /** `path.join(base, name)`, without normalisation of `.` and `..`. */
  function JoinPath(base: string, name: string): (r: string)
    ensures name == [] ==> r == base
    ensures name != [] ==> |r| == |base| + 1 + |name| && r[..|base|] == base && r[|base|..] == "/" + name
  {
    if name == [] then base else base + "/" + name
  }

  /** The context as written to the registry file: `config` dropped. */
  function Strip(ctx: Context): (r: Context)
    ensures r.config == None
    ensures r == ctx.(config := None)
  {
    ctx.(config := None)
  }

  /** The deep copy `ecosystem(system)` writes: every entry without its
      `config`. */
  function Persisted(system: map<string, Context>): (r: map<string, Context>)
    ensures r.Keys == system.Keys
    ensures forall k :: k in r ==> r[k] == system[k].(config := None)
  {
    map k | k in system :: Strip(system[k])
  }

  /** Writing then re-reading is stable, and the write of an upsert is the
      upsert of the written entry: `save` touches exactly one key. */
  lemma PersistedUpsert(system: map<string, Context>, ctx: Context)
    ensures Persisted(system[ctx.id := ctx]) == Persisted(system)[ctx.id := Strip(ctx)]
    ensures Persisted(Persisted(system)) == Persisted(system)
  {
  }

  /** The registry file as the orchestrator finds it on disk. */
  datatype Stored =
    | Unreadable          // missing file or invalid JSON
    | NotAnObject         // JSON that is a number, string or boolean
    | Registry(entries: map<string, Context>)

  /** `ecosystem()` with no argument: a failed or non-object read is `{}`. */
  function Read(store: Stored): (system: map<string, Context>)
    ensures !store.Registry? ==> system == map[]
    ensures store.Registry? ==> system == store.entries
  {
    if store.Registry? then store.entries else map[]
  }

  /** `available(port)`: no registered entry holds `port`. */
  predicate PortFree(system: map<string, Context>, port: int) {
    forall k :: k in system ==> system[k].port != port
  }

  /** The port `resolve` gives a new context: the first port of
      `[lo, end)` held by no entry, or `start` when there is none. */
  function FirstFreeFrom(system: map<string, Context>, lo: int, end: int, start: int): (p: int)
    decreases end - lo
  {
    if lo >= end then start
    else if PortFree(system, lo) then lo
    else FirstFreeFrom(system, lo + 1, end, start)
  }

  function AllocatedPort(system: map<string, Context>, start: int, end: int): int {
    FirstFreeFrom(system, start, end, start)
  }

  /** First fit: the allocated port is the least free port of the range, or
      `start` exactly when every port of the range is taken. */
  lemma {:induction false} FirstFreeFromIsFirstFit(system: map<string, Context>, lo: int, end: int, start: int)
    ensures var p := FirstFreeFrom(system, lo, end, start);
      (lo <= p < end && PortFree(system, p) && forall q :: lo <= q < p ==> !PortFree(system, q))
      || (p == start && forall q :: lo <= q < end ==> !PortFree(system, q))
    decreases end - lo
  {
    if lo < end && !PortFree(system, lo) {
      FirstFreeFromIsFirstFit(system, lo + 1, end, start);
    }
  }

  lemma AllocatedPortIsFirstFit(system: map<string, Context>, start: int, end: int)
    ensures var p := AllocatedPort(system, start, end);
      (start <= p < end && PortFree(system, p) && forall q :: start <= q < p ==> !PortFree(system, q))
      || (p == start && forall q :: start <= q < end ==> !PortFree(system, q))
  {
    FirstFreeFromIsFirstFit(system, start, end, start);
  }

  /** The instance cap: `conf.maxInstances` when it is a positive number,
      the CPU count otherwise. */
  function MaxInstances(settings: Settings): (m: nat)
    ensures settings.maxInstances.Some? && settings.maxInstances.value > 0 ==> m == settings.maxInstances.value
    ensures !(settings.maxInstances.Some? && settings.maxInstances.value > 0) ==> m == settings.cpus
  {
    match settings.maxInstances
    case Some(n) => if n > 0 then n else settings.cpus
    case None => settings.cpus
  }

  function Abs(x: int): nat { if x < 0 then -x else x }

  /** The scale `resolve` stores: a numeric `opts.scale` when given, else
      the previous scale (1 when it was falsy), made non-negative and capped
      at the instance cap. */
  function ClampedScale(requested: Value, previous: int, cap: nat): (s: nat)
    ensures s <= cap
    ensures requested.Num? ==> s == if Abs(requested.n) < cap then Abs(requested.n) else cap
    ensures !requested.Num? && previous != 0 ==> s == if Abs(previous) < cap then Abs(previous) else cap
    ensures !requested.Num? && previous == 0 ==> s == if 1 < cap then 1 else cap
  {
    var scale := if requested.Num? then requested.n else if previous == 0 then 1 else previous;
    if Abs(scale) < cap then Abs(scale) else cap
  }

  /** Scale has no lower bound of 1: a requested 0 is stored as 0. */
  lemma ZeroScaleStaysZero(previous: int, cap: nat)
    ensures ClampedScale(Num(0), previous, cap) == 0
  {
  }
}
