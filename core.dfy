/** The stateful half of core.js: the registry file that `ecosystem` reads
    and rewrites, and the operations that change it (`save`, `resolve`,
    `configuration` and the registry step of `destroy`). */
module Core {
  import opened Values
  import opened Registry
  import opened Cascade
  import opened Hooks
  import Pipeline

  /** No two entries hold the same port. */
  predicate PortsDistinct(system: map<string, Context>) {
    forall a, b :: a in system && b in system && a != b ==> system[a].port != system[b].port
  }

  /** Each entry is stored under its own id. */
  predicate KeyedById(system: map<string, Context>) {
    forall k :: k in system ==> system[k].id == k
  }

  /** The context `configuration(ctx)` leaves behind: unchanged when its
      config is already cached; otherwise the loaded config cached,
      `instances` and `execMode` derived from it, and the preferred port
      taken when it is a number that no registered entry holds. */
  function ConfiguredContext(ctx: Context, loaded: Config, system: map<string, Context>): Context {
    if ctx.config.Some? then ctx
    else
      var pref := PreferredPort(loaded, ctx);
      ctx.(config := Some(loaded),
           instances := Instances(loaded, ctx.scale),
           execMode := ExecMode(loaded),
           port := if TakesPreferredPort(pref, system) then pref.n else ctx.port)
  }

  /** Whether `configuration(ctx)` writes the context back: on a cache miss
      whose preferred port is a number no registered entry holds. */
  predicate SavesPort(ctx: Context, loaded: Config, system: map<string, Context>) {
    ctx.config.None? && TakesPreferredPort(PreferredPort(loaded, ctx), system)
  }

  /** Upserting an entry that keeps its own port, or takes a free one,
      keeps the ports of a registry distinct. */
  lemma {:induction false} UpsertKeepsPortsDistinct(system: map<string, Context>, ctx: Context)
    requires PortsDistinct(system)
    requires (ctx.id in system && system[ctx.id].port == ctx.port) || PortFree(system, ctx.port)
    ensures PortsDistinct(Persisted(system)[ctx.id := Strip(ctx)])
  {
    var s := Persisted(system)[ctx.id := Strip(ctx)];
    forall a, b | a in s && b in s && a != b ensures s[a].port != s[b].port {
      if a == ctx.id || b == ctx.id {
        var o := if a == ctx.id then b else a;
        assert s[o].port == system[o].port;
        assert s[ctx.id].port == ctx.port;
      } else {
        assert s[a].port == system[a].port && s[b].port == system[b].port;
      }
    }
  }

  /** A second `configuration` call is a cache hit; the port moves only to a
      number held by no registered entry, and only on the first call;
      nothing but the cached fields and the port changes. */
  lemma ConfigurationCaches(ctx: Context, loaded: Config, system: map<string, Context>, later: Config,
                            now: map<string, Context>)
    ensures var c := ConfiguredContext(ctx, loaded, system);
      && c.config.Some?
      && ConfiguredContext(c, later, now) == c
      && (ctx.config.Some? ==> c == ctx)
      && (c.port != ctx.port ==>
            ctx.config.None? && PortFree(system, c.port) && PreferredPort(loaded, ctx) == Num(c.port))
      && c.(port := ctx.port, config := ctx.config, instances := ctx.instances, execMode := ctx.execMode) == ctx
  {
  }

  /** Taking a free preferred port keeps the ports of a registry distinct. */
  lemma ConfigurationKeepsPortsDistinct(ctx: Context, loaded: Config, system: map<string, Context>)
    requires PortsDistinct(system)
    requires ctx.id in system && system[ctx.id].port == ctx.port
    ensures var c := ConfiguredContext(ctx, loaded, system);
      PortsDistinct(Persisted(system)[c.id := Strip(c)])
  {
    UpsertKeepsPortsDistinct(system, ConfiguredContext(ctx, loaded, system));
  }

  /** The orchestrator's shared state: the module settings and the registry
      file (re-read by every operation, rewritten whole by every write). */
  class Orchestrator {
    const settings: Settings
    var store: Stored

    constructor (settings: Settings, store: Stored)
      ensures this.settings == settings && this.store == store
    {
      this.settings := settings;
      this.store := store;
    }

    /** `ecosystem()`: the registry as currently read from the file. */
    function Ecosystem(): map<string, Context>
      reads this
    {
      Read(store)
    }

    /** `available(port)`. */
    predicate Available(port: int)
      reads this
    {
      PortFree(Ecosystem(), port)
    }

    /** `ecosystem(system)`: rewrite the file with `config` dropped. */
    method Write(system: map<string, Context>)
      modifies this
      ensures store == Registry(Persisted(system))
      ensures Ecosystem() == Persisted(system) && Ecosystem().Keys == system.Keys
    {
      store := Registry(Persisted(system));
    }

    /** `save(ctx)`: upsert one entry. Every other entry is kept (with its
        `config`, if the file had one, dropped). */
    method Save(ctx: Context)
      modifies this
      ensures Ecosystem() == Persisted(old(Ecosystem()))[ctx.id := Strip(ctx)]
      ensures old(Ecosystem()) == Persisted(old(Ecosystem())) ==> Ecosystem() == old(Ecosystem())[ctx.id := Strip(ctx)]
    {
      var system := Ecosystem();
      PersistedUpsert(system, ctx);
      Write(system[ctx.id := ctx]);
    }

    /** The registry step of `destroy`: delete `id` and rewrite the file.
        Deleting an absent id leaves the registry as it was. */
    method Forget(id: string)
      modifies this
      ensures Ecosystem() == Persisted(old(Ecosystem())) - {id}
      ensures id !in old(Ecosystem()) && old(Ecosystem()) == Persisted(old(Ecosystem())) ==> Ecosystem() == old(Ecosystem())
      ensures Ecosystem().Keys == old(Ecosystem()).Keys - {id}
      ensures KeyedById(old(Ecosystem())) ==> KeyedById(Ecosystem())
    {
      var system := Ecosystem();
      Write(system - {id});
    }

    /** The labelled port scan of `resolve`: the first port of
        `[start, end)` held by no entry, or `start`. */
    method ScanPorts() returns (port: int)
      ensures port == AllocatedPort(Ecosystem(), settings.start, settings.end)
      ensures (settings.start <= port < settings.end && Available(port))
              || (port == settings.start && forall q :: settings.start <= q < settings.end ==> !Available(q))
    {
      var system := Ecosystem();
      var start, end := settings.start, settings.end;
      AllocatedPortIsFirstFit(system, start, end);
      port := start;
      var i := start;
      while i < end
        invariant start <= i
        invariant FirstFreeFrom(system, i, end, start) == AllocatedPort(system, start, end)
        decreases end - i
      {
        var keys := system.Keys;
        var taken := false;
        while keys != {}
          invariant keys <= system.Keys
          invariant !taken ==> forall m :: m in system && m !in keys ==> system[m].port != i
          invariant taken ==> !PortFree(system, i)
          decreases |keys|
        {
          var m :| m in keys;
          if system[m].port == i {
            taken := true;
            break;
          }
          keys := keys - {m};
        }
        if !taken {
          port := i;
          return;
        }
        i := i + 1;
      }
    }

    /** `resolve(uri, branch, {mode, scale, commit})`. The id is the
        sanitised triple; an existing entry keeps its port, cwd and dir, a
        new one gets the scanned port and a fresh checkout path. `commit`
        changes only for a string, `mode` is set, `scale` is clamped, and
        the registry maps the context's id to it afterwards. */
    method Resolve(uri: string, branch: string, mode: string, scale: Value, commit: Value) returns (ctx: Context)
      modifies this
      ensures var id := ContextId(uri, branch, mode);
        var base := if id in old(Ecosystem()) then old(Ecosystem())[id]
                    else Context(id, id, uri, branch, mode, settings.reposDir, JoinPath(settings.reposDir, id),
                                 AllocatedPort(old(Ecosystem()), settings.start, settings.end),
                                 None, 0, Undefined, Undefined, None);
        ctx == base.(commit := if commit.Str? then Some(commit.s) else base.commit,
                     mode := mode,
                     scale := ClampedScale(scale, base.scale, MaxInstances(settings)))
      ensures Ecosystem() == Persisted(old(Ecosystem()))[ctx.id := Strip(ctx)]
      ensures ctx.scale <= MaxInstances(settings)
      ensures KeyedById(old(Ecosystem())) ==> ctx.id == ContextId(uri, branch, mode) && KeyedById(Ecosystem())
      ensures KeyedById(old(Ecosystem())) ==> Ecosystem().Keys == old(Ecosystem()).Keys + {ContextId(uri, branch, mode)}
      ensures PortsDistinct(old(Ecosystem())) && KeyedById(old(Ecosystem()))
              && (ContextId(uri, branch, mode) in old(Ecosystem())
                  || exists q :: settings.start <= q < settings.end && PortFree(old(Ecosystem()), q))
              ==> PortsDistinct(Ecosystem())
    {
      var system := Ecosystem();
      var id := ContextId(uri, branch, mode);
      var base: Context;
      if id in system {
        base := system[id];
      } else {
        var port := ScanPorts();
        var cwd := settings.reposDir;
        base := Context(id, id, uri, branch, mode, cwd, JoinPath(cwd, id), port, None, 0, Undefined, Undefined, None);
      }
      ctx := base.(commit := if commit.Str? then Some(commit.s) else base.commit,
                   mode := mode,
                   scale := ClampedScale(scale, base.scale, MaxInstances(settings)));
      Save(ctx);
      AllocatedPortIsFirstFit(system, settings.start, settings.end);
      if PortsDistinct(system) && KeyedById(system)
         && (id in system || exists q :: settings.start <= q < settings.end && PortFree(system, q)) {
        UpsertKeepsPortsDistinct(system, ctx);
      }
    }

    /** The registry side of a run of pipeline steps, one step at a time: a
        resolve step resolves its triple (scale and commit left unset), a
        destroy step deletes its id as `destroy` does, and no other step
        adds or removes an id. The registered ids afterwards are exactly
        the ones the step list's effect predicts. */
    method RunSteps(steps: seq<Pipeline.Step>)
      requires KeyedById(Ecosystem())
      requires Pipeline.AllResolveOwnIds(steps)
      modifies this
      ensures KeyedById(Ecosystem())
      ensures Ecosystem().Keys == Pipeline.KeysAfter(old(Ecosystem()).Keys, steps)
    {
      ghost var keys := Ecosystem().Keys;
      var i := 0;
      while i < |steps|
        invariant 0 <= i <= |steps|
        invariant KeyedById(Ecosystem())
        invariant Ecosystem().Keys == Pipeline.KeysAfter(keys, steps[..i])
      {
        ghost var before := Ecosystem().Keys;
        var step := steps[i];
        if step.Resolve? {
          var _ := Resolve(step.uri, step.branch, step.mode, Undefined, Undefined);
        } else if step.Destroy? {
          Forget(step.id);
        }
        assert Ecosystem().Keys == Pipeline.Effect(before, step);
        Pipeline.KeysAfterCons(before, step, []);
        Pipeline.KeysAfterAppend(keys, steps[..i], [step]);
        assert steps[..i + 1] == steps[..i] + [step];
        i := i + 1;
      }
      assert steps[..|steps|] == steps;
    }

    /** `Pipeline.create` / `Pipeline.update` run alone on the registry: with
        the staging id free or the staged context's own, the staging context
        is gone afterwards, and the release context is registered exactly
        when the test passed or it already was. */
    method RunDeploy(p: Pipeline.Promotion, uri: string, branch: string, code: ExitCode)
      requires KeyedById(Ecosystem())
      requires Pipeline.OwnsStagingId(Ecosystem(), uri, branch)
      modifies this
      ensures KeyedById(Ecosystem())
      ensures Pipeline.StagingId(uri, branch) !in Ecosystem()
      ensures Pipeline.ReleaseId(uri, branch) in Ecosystem() <==>
                !Failed(code) || Pipeline.ReleaseId(uri, branch) in old(Ecosystem())
    {
      var system := Ecosystem();
      Pipeline.DeployPlanResolvesOwnIds(p, uri, branch, code, system);
      Pipeline.DeployPlanKeys(p, uri, branch, code, system, system.Keys);
      RunSteps(Pipeline.DeployPlan(p, uri, branch, code, system));
    }

    /** `configuration(ctx)` given the parsed config file (`{}` when neither
        `branchoff@config` nor `.branchoffrc` could be read). */
    method Configure(ctx: Context, loaded: Config) returns (c: Context)
      modifies this
      ensures c == ConfiguredContext(ctx, loaded, old(Ecosystem()))
      ensures SavesPort(ctx, loaded, old(Ecosystem())) ==> Ecosystem() == Persisted(old(Ecosystem()))[c.id := Strip(c)]
      ensures !SavesPort(ctx, loaded, old(Ecosystem())) ==> store == old(store)
    {
      if ctx.config.Some? {
        return ctx;
      }
      var pref := PreferredPort(loaded, ctx);
      c := ctx.(config := Some(loaded), instances := Instances(loaded, ctx.scale), execMode := ExecMode(loaded));
      if pref.Num? && Available(pref.n) {
        c := c.(port := pref.n);
        Save(c);
      }
    }

    /** `env(ctx, event, extra)`: configure the context, then merge. */
    method Env(ctx: Context, loaded: Config, processEnv: map<string, string>, event: string,
               extra: map<string, Value>) returns (c: Context, vars: map<string, Value>)
      modifies this
      ensures c == ConfiguredContext(ctx, loaded, old(Ecosystem()))
      ensures vars == Environment(processEnv, c, c.config.value, event, extra)
      ensures ctx.config.Some? ==> store == old(store) && c == ctx
    {
      c := Configure(ctx, loaded);
      vars := Environment(processEnv, c, c.config.value, event, extra);
    }

    /** `trigger(ctx, event, cb)`: configure the context, pick the hook
        script, and report the shell run's result, or `(0, "No file")`. */
    method Trigger(ctx: Context, loaded: Config, event: string, isFile: string -> bool, ran: HookResult)
      returns (c: Context, plan: HookPlan, result: HookResult)
      modifies this
      ensures c == ConfiguredContext(ctx, loaded, old(Ecosystem()))
      ensures plan == PlanHook(c, c.config.value, event, isFile)
      ensures result == TriggerResult(plan, ran)
      ensures plan.NoFile? ==> result == HookResult(Exited(0), "No file")
    {
      c := Configure(ctx, loaded);
      plan := PlanHook(c, c.config.value, event, isFile);
      result := TriggerResult(plan, ran);
    }
  }
}
