/** The configuration cascade of core.js: the preferred-port precedence
    chain of `configuration` and the layered environment of `env`. */
module Cascade {
  import opened Values
  import opened Registry

  /** `ctx.mode || 'release'`. */
  function EffectiveMode(mode: string): (m: string)
    ensures m != ""
    ensures mode != "" ==> m == mode
    ensures mode == "" ==> m == "release"
  {
    if mode == "" then "release" else mode
  }

  /** The eight `preferPort` paths, most specific first. */
  function PreferPortPaths(uri: string, branch: string, mode: string): (ps: seq<string>)
    ensures |ps| == 8
    ensures ps[0] == "preferPort.branch." + uri + "^" + branch + "#" + mode
    ensures ps[7] == "preferPort"
  {
    [ "preferPort.branch." + uri + "^" + branch + "#" + mode,
      "preferPort.branch." + uri + "^" + branch,
      "preferPort.branch." + branch + "#" + mode,
      "preferPort.branch." + branch,
      "preferPort.branch." + uri,
      "preferPort.branch.default",
      "preferPort.mode." + mode,
      "preferPort" ]
  }

  function LookupAll(config: Config, paths: seq<string>): (vs: seq<Value>)
    ensures |vs| == |paths|
    ensures forall i :: 0 <= i < |paths| ==> vs[i] == Lookup(config, paths[i])
  {
    if paths == [] then [] else [Lookup(config, paths[0])] + LookupAll(config, paths[1..])
  }

  /** The value of the `||` chain over the eight `preferPort` lookups. */
  function PreferredPort(config: Config, ctx: Context): Value {
    OrChain(LookupAll(config, PreferPortPaths(ctx.uri, ctx.branch, EffectiveMode(ctx.mode))))
  }

  /** The preferred port is the first truthy lookup in precedence order:
      every more specific key is unset or falsy. When all eight are falsy it
      is whatever the bare `preferPort` key holds. */
  lemma PreferredPortPrecedence(config: Config, ctx: Context)
    ensures var paths := PreferPortPaths(ctx.uri, ctx.branch, EffectiveMode(ctx.mode));
      var v := PreferredPort(config, ctx);
      (exists i :: 0 <= i < 8 && Truthy(Lookup(config, paths[i])) && v == Lookup(config, paths[i])
         && forall j :: 0 <= j < i ==> !Truthy(Lookup(config, paths[j])))
      || ((forall i :: 0 <= i < 8 ==> !Truthy(Lookup(config, paths[i]))) && v == Lookup(config, "preferPort"))
  {
    var paths := PreferPortPaths(ctx.uri, ctx.branch, EffectiveMode(ctx.mode));
    var vs := LookupAll(config, paths);
    OrChainFirstTruthy(vs);
  }

  /** Whether `configuration` moves the context to its preferred port: the
      value is a number (never NaN here: NaN is its own value) and no
      registered entry holds it. */
  predicate TakesPreferredPort(v: Value, system: map<string, Context>) {
    v.Num? && PortFree(system, v.n)
  }

  /** `selectn('pm2.instances', config) || ctx.scale`. */
  function Instances(config: Config, scale: int): (v: Value)
    ensures Truthy(Lookup(config, "pm2.instances")) ==> v == Lookup(config, "pm2.instances")
    ensures !Truthy(Lookup(config, "pm2.instances")) ==> v == Num(scale)
  {
    OrChain([Lookup(config, "pm2.instances"), Num(scale)])
  }

  /** `selectn('pm2.exec_mode', config) || 'cluster'`. */
  function ExecMode(config: Config): (v: Value)
    ensures Truthy(v)
    ensures Truthy(Lookup(config, "pm2.exec_mode")) ==> v == Lookup(config, "pm2.exec_mode")
    ensures !Truthy(Lookup(config, "pm2.exec_mode")) ==> v == Str("cluster")
  {
    OrChain([Lookup(config, "pm2.exec_mode"), Str("cluster")])
  }

  /** The seventeen `env` paths of `env`, least specific first (two of them
      appear twice, as in the source). */
  function EnvPaths(uri: string, branch: string, mode: string, event: string): (ps: seq<string>)
    ensures |ps| == 17
    ensures ps[16] == "env.branch." + uri + "^" + branch + "#" + mode + "@" + event
  {
    [ "env.default",
      "env." + event,
      "env.mode.default",
      "env.mode." + mode,
      "env.mode." + mode + "@" + event,
      "env.branch.default",
      "env.branch." + branch,
      "env.branch." + branch + "@" + event,
      "env.branch." + branch + "#" + mode,
      "env.branch." + branch + "#" + mode,
      "env.branch." + branch + "#" + mode + "@" + event,
      "env.branch." + uri,
      "env.branch." + uri + "^" + branch,
      "env.branch." + uri + "^" + branch + "@" + event,
      "env.branch." + uri + "^" + branch + "#" + mode,
      "env.branch." + uri + "^" + branch + "#" + mode,
      "env.branch." + uri + "^" + branch + "#" + mode + "@" + event ]
  }

  /** What `Object.assign` copies from one source: the fields of an object;
      nothing from `undefined`, `null`, numbers or booleans. */
  function Layer(v: Value): (m: map<string, Value>)
    ensures v.Obj? ==> m == v.fields
    ensures !v.Obj? ==> m == map[]
  {
    if v.Obj? then v.fields else map[]
  }

  function ConfigLayers(config: Config, paths: seq<string>): (ls: seq<map<string, Value>>)
    ensures |ls| == |paths|
    ensures forall i :: 0 <= i < |paths| ==> ls[i] == Layer(Lookup(config, paths[i]))
  {
    if paths == [] then [] else [Layer(Lookup(config, paths[0]))] + ConfigLayers(config, paths[1..])
  }

  /** `Object.assign({}, l0, l1, ...)`: later layers override earlier ones. */
  function Merge(layers: seq<map<string, Value>>): map<string, Value>
    decreases |layers|
  {
    if layers == [] then map[] else Merge(layers[..|layers| - 1]) + layers[|layers| - 1]
  }

  /** A key is in the merge iff some layer defines it, and then it holds the
      value of the LAST layer that defines it. */
  lemma {:induction false} MergeLastWins(layers: seq<map<string, Value>>, k: string)
    ensures k in Merge(layers) <==> exists i :: 0 <= i < |layers| && k in layers[i]
    ensures forall j :: (0 <= j < |layers| && k in layers[j] && (forall i :: j < i < |layers| ==> k !in layers[i]))
              ==> k in Merge(layers) && Merge(layers)[k] == layers[j][k]
    decreases |layers|
  {
    if layers != [] {
      var init := layers[..|layers| - 1];
      MergeLastWins(init, k);
      forall j | 0 <= j < |layers| && k in layers[j] && (forall i :: j < i < |layers| ==> k !in layers[i])
        ensures k in Merge(layers) && Merge(layers)[k] == layers[j][k]
      {
        if j < |layers| - 1 {
          assert init[j] == layers[j];
          forall i | j < i < |init| ensures k !in init[i] { assert init[i] == layers[i]; }
        }
      }
      if exists i :: 0 <= i < |layers| && k in layers[i] {
        var i :| 0 <= i < |layers| && k in layers[i];
        if i < |layers| - 1 { assert init[i] == layers[i]; }
      }
      if k in Merge(init) {
        var i :| 0 <= i < |init| && k in init[i];
        assert layers[i] == init[i];
      }
    }
  }

  /** The built-in `BRANCHOFF_*` variables of a context. */
  function BuiltIns(ctx: Context): (m: map<string, Value>)
    ensures m.Keys == {"BRANCHOFF_PORT", "BRANCHOFF_CWD", "BRANCHOFF_BRANCH", "BRANCHOFF_MODE",
                       "BRANCHOFF_NAME", "BRANCHOFF_SCALE", "BRANCHOFF_EXEC_MODE"}
  {
    map[ "BRANCHOFF_PORT" := Num(ctx.port),
         "BRANCHOFF_CWD" := Str(ctx.dir),
         "BRANCHOFF_BRANCH" := Str(ctx.branch),
         "BRANCHOFF_MODE" := Str(EffectiveMode(ctx.mode)),
         "BRANCHOFF_NAME" := Str(ctx.id),
         "BRANCHOFF_SCALE" := ctx.instances,
         "BRANCHOFF_EXEC_MODE" := ctx.execMode ]
  }

  function ProcessEnvLayer(processEnv: map<string, string>): (m: map<string, Value>)
    ensures m.Keys == processEnv.Keys
  {
    map k | k in processEnv :: Str(processEnv[k])
  }

  /** All twenty layers of `env`, in assignment order: the orchestrator's
      own environment, the built-ins, the seventeen config blocks, `extra`. */
  function EnvLayers(processEnv: map<string, string>, ctx: Context, config: Config, event: string,
                     extra: map<string, Value>): (ls: seq<map<string, Value>>)
    ensures |ls| == 20
    ensures ls[0] == ProcessEnvLayer(processEnv) && ls[1] == BuiltIns(ctx) && ls[19] == extra
    ensures forall i :: 2 <= i < 19 ==>
      ls[i] == Layer(Lookup(config, EnvPaths(ctx.uri, ctx.branch, EffectiveMode(ctx.mode), event)[i - 2]))
  {
    [ProcessEnvLayer(processEnv), BuiltIns(ctx)]
      + ConfigLayers(config, EnvPaths(ctx.uri, ctx.branch, EffectiveMode(ctx.mode), event))
      + [extra]
  }

  /** `env(ctx, event, extra)` for a context whose configuration is loaded. */
  function Environment(processEnv: map<string, string>, ctx: Context, config: Config, event: string,
                       extra: map<string, Value>): map<string, Value> {
    Merge(EnvLayers(processEnv, ctx, config, event, extra))
  }

  /** `extra` always wins; a built-in survives unless a config block or
      `extra` redefines it; the mode variable is the context's mode or
      "release". */
  lemma EnvironmentPrecedence(processEnv: map<string, string>, ctx: Context, config: Config,
                              event: string, extra: map<string, Value>, k: string)
    ensures var env := Environment(processEnv, ctx, config, event, extra);
      && (k in extra ==> k in env && env[k] == extra[k])
      && (k in env <==> (k in processEnv || k in BuiltIns(ctx) || k in extra
            || exists i :: 2 <= i < 19 && k in EnvLayers(processEnv, ctx, config, event, extra)[i]))
      && ((forall i :: 2 <= i < 20 ==> k !in EnvLayers(processEnv, ctx, config, event, extra)[i]) ==>
            (k == "BRANCHOFF_MODE" ==> env[k] == Str(EffectiveMode(ctx.mode)))
            && (k == "BRANCHOFF_BRANCH" ==> env[k] == Str(ctx.branch)))
  {
    var ls := EnvLayers(processEnv, ctx, config, event, extra);
    MergeLastWins(ls, k);
    if exists i :: 0 <= i < 20 && k in ls[i] {
      var i :| 0 <= i < 20 && k in ls[i];
      if i == 0 { assert k in processEnv; }
    }
  }
}
