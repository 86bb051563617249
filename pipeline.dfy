/** The `Pipeline` object of app.js: for each pipeline run on its own, the
    sequence of steps it executes, in order. A step is one deferred task
    (or, for `Resolve` and the pass/fail hook, work done synchronously at
    that point of the run). */
module Pipeline {
  import opened Values
  import opened Registry
  import opened Hooks

  datatype Step =
    | Resolve(id: string, uri: string, branch: string, mode: string)  // core.resolve, outside the queue
    | Clone(id: string)                   // core.create: clone and optional reset
    | Pull(id: string)                    // core.update: reset and pull
    | Trigger(id: string, event: string)  // core.trigger
    | Start(id: string)                   // core.start: process-manager (re)start
    | Destroy(id: string)                 // core.destroy: stop, delete, rm, registry delete
    | Callback(name: string)              // the caller's `then`

  /** The `resolve(uri, branch, {mode})` step, which registers the triple's id. */
  function Resolving(uri: string, branch: string, mode: string): Step {
    Resolve(ContextId(uri, branch, mode), uri, branch, mode)
  }

  /** A resolve step names the id its triple resolves to. */
  predicate ResolvesOwnId(step: Step) {
    step.Resolve? ==> step.id == ContextId(step.uri, step.branch, step.mode)
  }

  /** Which pipeline promotes after a passing test run. */
  datatype Promotion = ForCreate | ForUpdate

  function StagingId(uri: string, branch: string): string { ContextId(uri, branch, "test") }
  function ReleaseId(uri: string, branch: string): string { ContextId(uri, branch, "") }

  /** `code ? 'fail' : 'pass'`. */
  function Verdict(code: ExitCode): (e: string)
    ensures e == "fail" <==> Failed(code)
    ensures e == "pass" <==> !Failed(code)
  {
    if Failed(code) then "fail" else "pass"
  }

  /** `Pipeline.destroy(uri, branch, then, {mode})`. */
  function DestroyPlan(uri: string, branch: string, mode: string): seq<Step> {
    var id := ContextId(uri, branch, mode);
    [Resolving(uri, branch, mode), Trigger(id, "destroy"), Destroy(id), Callback("destroy")]
  }

  /** The uri and branch of the context the staging `resolve` returns: the
      entry already registered under the staging id, whichever (uri, branch)
      it was made for, or a new context of the pipeline's own. */
  function StagedOwner(system: map<string, Context>, uri: string, branch: string): (string, string) {
    var t := StagingId(uri, branch);
    if t in system then (system[t].uri, system[t].branch) else (uri, branch)
  }

  /** The id the test run tears down: the staging id of the staged
      context's own uri and branch. */
  function TeardownId(system: map<string, Context>, uri: string, branch: string): (d: string)
    ensures StagingId(uri, branch) !in system ==> d == StagingId(uri, branch)
    ensures var t := StagingId(uri, branch);
      t in system ==> d == StagingId(system[t].uri, system[t].branch)
  {
    var o := StagedOwner(system, uri, branch);
    StagingId(o.0, o.1)
  }

  /** The staging id is free, or held by an entry whose own staging id it is. */
  predicate OwnsStagingId(system: map<string, Context>, uri: string, branch: string) {
    TeardownId(system, uri, branch) == StagingId(uri, branch)
  }

  /** `Pipeline.test` started on registry `system`: stage, run the test
      hook, fire pass or fail, tear the staged context down (by its own uri
      and branch), then hand the code to `then`. */
  function TestPlan(uri: string, branch: string, code: ExitCode, system: map<string, Context>): seq<Step> {
    var t := StagingId(uri, branch);
    var o := StagedOwner(system, uri, branch);
    [Resolving(uri, branch, "test"), Clone(t), Trigger(t, "create"), Start(t), Trigger(t, "test"),
     Trigger(t, Verdict(code))]
      + DestroyPlan(o.0, o.1, "test")
      + [Callback("test")]
  }

  /** What `create` and `update` do to the release context after a pass. */
  function PromotionPlan(p: Promotion, uri: string, branch: string): seq<Step> {
    var r := ReleaseId(uri, branch);
    match p
    case ForCreate => [Resolving(uri, branch, ""), Clone(r), Trigger(r, "create"), Start(r)]
    case ForUpdate => [Resolving(uri, branch, ""), Clone(r), Pull(r), Trigger(r, "update"), Start(r)]
  }

  function Label(p: Promotion): string {
    match p
    case ForCreate => "create"
    case ForUpdate => "update"
  }

  /** `Pipeline.create` / `Pipeline.update`: the test pipeline, promotion
      only when the test code is falsy, and the final callback either way. */
  function DeployPlan(p: Promotion, uri: string, branch: string, code: ExitCode, system: map<string, Context>): seq<Step> {
    TestPlan(uri, branch, code, system)
      + (if Failed(code) then [] else PromotionPlan(p, uri, branch))
      + [Callback(Label(p))]
  }

  /** The steps `restore` defers for one registry entry. */
  function EntryPlan(ctx: Context): seq<Step> {
    if ctx.mode == "test" then DestroyPlan(ctx.uri, ctx.branch, ctx.mode)
    else [Clone(ctx.id), Trigger(ctx.id, "create"), Start(ctx.id), Callback("restore")]
  }

  /** `Pipeline.restore` over the registry's entries, in key order. */
  function RestorePlan(entries: seq<Context>): seq<Step>
    decreases |entries|
  {
    if entries == [] then []
    else RestorePlan(entries[..|entries| - 1]) + EntryPlan(entries[|entries| - 1])
  }

  /** Every resolve step of `steps` names its own id. */
  predicate AllResolveOwnIds(steps: seq<Step>) {
    forall i :: 0 <= i < |steps| ==> ResolvesOwnId(steps[i])
  }

  lemma AllResolveOwnIdsAppend(a: seq<Step>, b: seq<Step>)
    requires AllResolveOwnIds(a) && AllResolveOwnIds(b)
    ensures AllResolveOwnIds(a + b)
  {
    forall i | 0 <= i < |a + b|
      ensures ResolvesOwnId((a + b)[i])
    {
      if i >= |a| {
        assert (a + b)[i] == b[i - |a|];
      }
    }
  }

  lemma DestroyPlanResolvesOwnIds(uri: string, branch: string, mode: string)
    ensures AllResolveOwnIds(DestroyPlan(uri, branch, mode))
  {
    var id := ContextId(uri, branch, mode);
    var plan := DestroyPlan(uri, branch, mode);
    forall i | 0 <= i < |plan|
      ensures ResolvesOwnId(plan[i])
    {
      if i > 0 {
        assert !plan[i].Resolve?;
      }
    }
  }

  lemma TestPlanResolvesOwnIds(uri: string, branch: string, code: ExitCode, system: map<string, Context>)
    ensures AllResolveOwnIds(TestPlan(uri, branch, code, system))
  {
    var t := StagingId(uri, branch);
    var o := StagedOwner(system, uri, branch);
    var head := [Resolving(uri, branch, "test"), Clone(t), Trigger(t, "create"), Start(t), Trigger(t, "test"),
                 Trigger(t, Verdict(code))];
    forall i | 0 <= i < |head|
      ensures ResolvesOwnId(head[i])
    {
      if i > 0 {
        assert !head[i].Resolve?;
      }
    }
    DestroyPlanResolvesOwnIds(o.0, o.1, "test");
    AllResolveOwnIdsAppend(head, DestroyPlan(o.0, o.1, "test"));
    AllResolveOwnIdsAppend(head + DestroyPlan(o.0, o.1, "test"), [Callback("test")]);
  }

  lemma PromotionPlanResolvesOwnIds(p: Promotion, uri: string, branch: string)
    ensures AllResolveOwnIds(PromotionPlan(p, uri, branch))
  {
    var plan := PromotionPlan(p, uri, branch);
    forall i | 0 <= i < |plan|
      ensures ResolvesOwnId(plan[i])
    {
      if i > 0 {
        assert !plan[i].Resolve?;
      }
    }
  }

  /** Every resolve step of a deploy run names its own id. */
  lemma DeployPlanResolvesOwnIds(p: Promotion, uri: string, branch: string, code: ExitCode,
                                 system: map<string, Context>)
    ensures AllResolveOwnIds(DeployPlan(p, uri, branch, code, system))
  {
    var test := TestPlan(uri, branch, code, system);
    var promo := if Failed(code) then [] else PromotionPlan(p, uri, branch);
    TestPlanResolvesOwnIds(uri, branch, code, system);
    if !Failed(code) {
      PromotionPlanResolvesOwnIds(p, uri, branch);
    }
    AllResolveOwnIdsAppend(test, promo);
    assert AllResolveOwnIds([Callback(Label(p))]);
    AllResolveOwnIdsAppend(test + promo, [Callback(Label(p))]);
  }

  /** What one step does to the set of registry ids: `resolve` inserts its
      id, `destroy` deletes it; no other step adds or removes an id. */
  function Effect(keys: set<string>, step: Step): set<string> {
    match step
    case Resolve(id, _, _, _) => keys + {id}
    case Destroy(id) => keys - {id}
    case _ => keys
  }

  predicate Neutral(step: Step) {
    !step.Resolve? && !step.Destroy?
  }

  /** The registry ids present after the steps. */
  function KeysAfter(keys: set<string>, steps: seq<Step>): set<string>
    decreases |steps|
  {
    if steps == [] then keys else KeysAfter(Effect(keys, steps[0]), steps[1..])
  }

  lemma KeysAfterCons(keys: set<string>, step: Step, rest: seq<Step>)
    ensures KeysAfter(keys, [step] + rest) == KeysAfter(Effect(keys, step), rest)
  {
    assert ([step] + rest)[1..] == rest;
  }

  lemma {:induction false} KeysAfterAppend(keys: set<string>, a: seq<Step>, b: seq<Step>)
    ensures KeysAfter(keys, a + b) == KeysAfter(KeysAfter(keys, a), b)
    decreases |a|
  {
    if a != [] {
      assert (a + b)[0] == a[0];
      assert (a + b)[1..] == a[1..] + b;
      KeysAfterAppend(Effect(keys, a[0]), a[1..], b);
    } else {
      assert a + b == b;
    }
  }

  /** Steps that neither resolve nor destroy leave the ids alone. */
  lemma {:induction false} KeysAfterNeutral(keys: set<string>, steps: seq<Step>)
    requires forall i :: 0 <= i < |steps| ==> Neutral(steps[i])
    ensures KeysAfter(keys, steps) == keys
    decreases |steps|
  {
    if steps != [] {
      assert Neutral(steps[0]);
      KeysAfterNeutral(keys, steps[1..]);
    }
  }

  /** Destroy is idempotent: it removes the id, and on an absent id leaves
      the registry as it was (the entry `resolve` inserts is deleted again). */
  lemma DestroyRemovesOnlyItsId(uri: string, branch: string, mode: string, keys: set<string>)
    ensures KeysAfter(keys, DestroyPlan(uri, branch, mode)) == keys - {ContextId(uri, branch, mode)}
    ensures ContextId(uri, branch, mode) !in keys ==> KeysAfter(keys, DestroyPlan(uri, branch, mode)) == keys
  {
    var id := ContextId(uri, branch, mode);
    var r := Resolving(uri, branch, mode);
    assert DestroyPlan(uri, branch, mode) == [r] + [Trigger(id, "destroy")] + [Destroy(id)] + [Callback("destroy")];
    KeysAfterAppend(keys, [r] + [Trigger(id, "destroy")] + [Destroy(id)], [Callback("destroy")]);
    KeysAfterAppend(keys, [r] + [Trigger(id, "destroy")], [Destroy(id)]);
    KeysAfterAppend(keys, [r], [Trigger(id, "destroy")]);
    KeysAfterCons(keys, r, []);
    KeysAfterCons(keys + {id}, Trigger(id, "destroy"), []);
    KeysAfterCons(keys + {id}, Destroy(id), []);
    KeysAfterCons(keys + {id} - {id}, Callback("destroy"), []);
  }

  /** A test run registers the staging id and removes the teardown id; when
      the staging id is the staged context's own, the staging context is
      gone afterwards and every other id is kept. */
  lemma TestPlanKeys(uri: string, branch: string, code: ExitCode, system: map<string, Context>, keys: set<string>)
    ensures KeysAfter(keys, TestPlan(uri, branch, code, system))
            == (keys + {StagingId(uri, branch)}) - {TeardownId(system, uri, branch)}
    ensures OwnsStagingId(system, uri, branch) ==>
              KeysAfter(keys, TestPlan(uri, branch, code, system)) == keys - {StagingId(uri, branch)}
  {
    var t := StagingId(uri, branch);
    var o := StagedOwner(system, uri, branch);
    var r := Resolving(uri, branch, "test");
    var mid := [Clone(t), Trigger(t, "create"), Start(t), Trigger(t, "test"), Trigger(t, Verdict(code))];
    var d := DestroyPlan(o.0, o.1, "test");
    assert TestPlan(uri, branch, code, system) == [r] + mid + d + [Callback("test")];
    KeysAfterAppend(keys, [r] + mid + d, [Callback("test")]);
    KeysAfterAppend(keys, [r] + mid, d);
    KeysAfterAppend(keys, [r], mid);
    KeysAfterCons(keys, r, []);
    KeysAfterNeutral(keys + {t}, mid);
    DestroyRemovesOnlyItsId(o.0, o.1, "test", keys + {t});
    KeysAfterNeutral(keys + {t} - {TeardownId(system, uri, branch)}, [Callback("test")]);
  }

  /** The teardown uses the staged context's uri and branch. When the
      staging id of branch "foo" already holds the release entry of branch
      "footest" (the two ids collide), the test run of "foo" adopts that
      entry and tears down "footest"'s staging id instead: the entry stays
      registered. */
  lemma CollidingTestKeepsEntry(code: ExitCode, release: Context)
    requires release.uri == "u" && release.branch == "footest"
    ensures var system := map[ReleaseId("u", "footest") := release];
      && !OwnsStagingId(system, "u", "foo")
      && ReleaseId("u", "footest") in KeysAfter(system.Keys, TestPlan("u", "foo", code, system))
  {
    var system := map[ReleaseId("u", "footest") := release];
    IdsCollideAcrossModes();
    assert StagingId("u", "foo") == ReleaseId("u", "footest");
    assert TeardownId(system, "u", "foo") == StagingId("u", "footest");
    StagingIdDiffers("u", "footest");
    TestPlanKeys("u", "foo", code, system, system.Keys);
  }

  lemma PromotionPlanKeys(p: Promotion, uri: string, branch: string, keys: set<string>)
    ensures KeysAfter(keys, PromotionPlan(p, uri, branch)) == keys + {ReleaseId(uri, branch)}
  {
    var s := PromotionPlan(p, uri, branch);
    assert s == [s[0]] + s[1..];
    KeysAfterCons(keys, s[0], s[1..]);
    KeysAfterNeutral(keys + {ReleaseId(uri, branch)}, s[1..]);
  }

  /** Create and update, run alone: the staging id is registered and the
      teardown id removed; the release context is registered after a pass,
      and nothing else changes. When the staging id is the staged context's
      own, the staging context is gone afterwards, and after a failure the
      registry holds exactly what it held before, minus the staging id. */
  lemma DeployPlanKeys(p: Promotion, uri: string, branch: string, code: ExitCode, system: map<string, Context>,
                       keys: set<string>)
    ensures KeysAfter(keys, DeployPlan(p, uri, branch, code, system))
            == ((keys + {StagingId(uri, branch)}) - {TeardownId(system, uri, branch)})
               + (if Failed(code) then {} else {ReleaseId(uri, branch)})
    ensures OwnsStagingId(system, uri, branch) ==>
              && KeysAfter(keys, DeployPlan(p, uri, branch, code, system))
                 == (keys - {StagingId(uri, branch)}) + (if Failed(code) then {} else {ReleaseId(uri, branch)})
              && StagingId(uri, branch) !in KeysAfter(keys, DeployPlan(p, uri, branch, code, system))
              && (ReleaseId(uri, branch) in KeysAfter(keys, DeployPlan(p, uri, branch, code, system))
                  <==> !Failed(code) || ReleaseId(uri, branch) in keys)
  {
    StagingIdDiffers(uri, branch);
    var test := TestPlan(uri, branch, code, system);
    var promo := if Failed(code) then [] else PromotionPlan(p, uri, branch);
    var last := [Callback(Label(p))];
    KeysAfterAppend(keys, test + promo, last);
    KeysAfterAppend(keys, test, promo);
    TestPlanKeys(uri, branch, code, system, keys);
    if !Failed(code) {
      PromotionPlanKeys(p, uri, branch, KeysAfter(keys, test));
    }
    KeysAfterNeutral(KeysAfter(keys, test + promo), last);
  }

  /** The shape of a test run: eleven steps; the verdict hook is the sixth,
      the teardown of the staged context the eighth and ninth, the test
      callback last; only the staging context is started, and only the
      verdict step fires pass or fail. */
  lemma TestPlanShape(uri: string, branch: string, code: ExitCode, system: map<string, Context>)
    ensures var t := StagingId(uri, branch); var d := TeardownId(system, uri, branch);
      var test := TestPlan(uri, branch, code, system);
      && |test| == 11
      && test[0] == Resolving(uri, branch, "test")
      && test[4] == Trigger(t, "test") && test[5] == Trigger(t, Verdict(code))
      && test[7] == Trigger(d, "destroy") && test[8] == Destroy(d) && test[10] == Callback("test")
      && (forall i :: 0 <= i < 11 && i != 5 ==> !(test[i].Trigger? && test[i].event in {"pass", "fail"}))
      && (forall i :: 0 <= i < 11 ==> !test[i].Start? || test[i].id == t)
  {
  }

  /** A promotion touches only the release context and ends by starting it. */
  lemma PromotionPlanShape(p: Promotion, uri: string, branch: string)
    ensures var s := PromotionPlan(p, uri, branch);
      && |s| > 0 && s[|s| - 1] == Start(ReleaseId(uri, branch))
      && forall i :: 0 <= i < |s| ==> !s[i].Callback? && s[i].id == ReleaseId(uri, branch)
  {
  }

  /** The pass hook fires exactly when the test code is falsy, the fail
      hook exactly when it is not. */
  lemma VerdictGating(p: Promotion, uri: string, branch: string, code: ExitCode, system: map<string, Context>)
    ensures var t := StagingId(uri, branch); var plan := DeployPlan(p, uri, branch, code, system);
      && (Trigger(t, "pass") in plan <==> !Failed(code))
      && (Trigger(t, "fail") in plan <==> Failed(code))
  {
    var t := StagingId(uri, branch);
    var test := TestPlan(uri, branch, code, system);
    var promo := if Failed(code) then [] else PromotionPlan(p, uri, branch);
    StagingIdDiffers(uri, branch);
    PromotionPlanShape(p, uri, branch);
    TestPlanShape(uri, branch, code, system);
    assert DeployPlan(p, uri, branch, code, system) == test + promo + [Callback(Label(p))];
    assert Trigger(t, "pass") !in promo && Trigger(t, "fail") !in promo;
    assert Trigger(t, Verdict(code)) in test;
    assert Trigger(t, "pass") in test ==> test[5] == Trigger(t, "pass");
    assert Trigger(t, "fail") in test ==> test[5] == Trigger(t, "fail");
  }

  /** A step missing from the head of a run can only occur after it. */
  lemma OnlyAfter(head: seq<Step>, tail: seq<Step>, x: Step)
    requires x !in head
    ensures x in head + tail <==> x in tail
    ensures forall i :: 0 <= i < |head + tail| && (head + tail)[i] == x ==> i >= |head|
  {
    forall i | 0 <= i < |head| ensures (head + tail)[i] != x {
      assert (head + tail)[i] == head[i];
    }
  }

  /** The release context is started only after a pass, and only after the
      test callback. */
  lemma ReleaseStartGating(p: Promotion, uri: string, branch: string, code: ExitCode, system: map<string, Context>)
    ensures var r := ReleaseId(uri, branch); var plan := DeployPlan(p, uri, branch, code, system);
      && (Start(r) in plan <==> !Failed(code))
      && (forall i :: 0 <= i < |plan| && plan[i] == Start(r) ==> i > 10)
  {
    var r := ReleaseId(uri, branch);
    var test := TestPlan(uri, branch, code, system);
    var rest := (if Failed(code) then [] else PromotionPlan(p, uri, branch)) + [Callback(Label(p))];
    StagingIdDiffers(uri, branch);
    PromotionPlanShape(p, uri, branch);
    TestPlanShape(uri, branch, code, system);
    assert DeployPlan(p, uri, branch, code, system) == test + rest;
    OnlyAfter(test, rest, Start(r));
    if !Failed(code) {
      var promo := PromotionPlan(p, uri, branch);
      assert rest[|promo| - 1] == Start(r);
    } else {
      assert rest == [Callback(Label(p))];
    }
  }

  /** Test gating: the pass and fail hooks and the release start follow the
      test code; the staged context is torn down before the test callback;
      the pipeline's own callback is the last step either way. */
  lemma TestGating(p: Promotion, uri: string, branch: string, code: ExitCode, system: map<string, Context>)
    ensures var t := StagingId(uri, branch); var d := TeardownId(system, uri, branch);
      var plan := DeployPlan(p, uri, branch, code, system);
      && (Trigger(t, "pass") in plan <==> !Failed(code))
      && (Trigger(t, "fail") in plan <==> Failed(code))
      && plan[7] == Trigger(d, "destroy") && plan[8] == Destroy(d) && plan[10] == Callback("test")
      && plan[|plan| - 1] == Callback(Label(p))
      && (Start(ReleaseId(uri, branch)) in plan <==> !Failed(code))
      && (forall i :: 0 <= i < |plan| && plan[i] == Start(ReleaseId(uri, branch)) ==> i > 10)
  {
    VerdictGating(p, uri, branch, code, system);
    ReleaseStartGating(p, uri, branch, code, system);
    TestPlanShape(uri, branch, code, system);
  }

  /** A test run ended by a signal reports `null`, which is falsy: it is
      treated as a pass and promotes. So does a missing test hook. */
  lemma FalsyCodesPromote(p: Promotion, uri: string, branch: string, system: map<string, Context>)
    ensures Start(ReleaseId(uri, branch)) in DeployPlan(p, uri, branch, Signalled, system)
    ensures Start(ReleaseId(uri, branch)) in
              DeployPlan(p, uri, branch, TriggerResult(NoFile, HookResult(Exited(1), "")).code, system)
  {
    TestGating(p, uri, branch, Signalled, system);
    TestGating(p, uri, branch, Exited(0), system);
  }

  /** The staging ids `restore` tears down. */
  function StagingEntries(entries: seq<Context>): set<string>
    decreases |entries|
  {
    if entries == [] then {}
    else
      var e := entries[|entries| - 1];
      StagingEntries(entries[..|entries| - 1]) + (if e.mode == "test" then {ContextId(e.uri, e.branch, "test")} else {})
  }

  /** Restore removes the staging id recomputed from each test-mode
      entry's uri and branch, and keeps every other id. */
  lemma {:induction false} RestorePlanKeys(entries: seq<Context>, keys: set<string>)
    ensures KeysAfter(keys, RestorePlan(entries)) == keys - StagingEntries(entries)
    decreases |entries|
  {
    if entries != [] {
      var init, e := entries[..|entries| - 1], entries[|entries| - 1];
      RestorePlanKeys(init, keys);
      KeysAfterAppend(keys, RestorePlan(init), EntryPlan(e));
      var k := keys - StagingEntries(init);
      if e.mode == "test" {
        DestroyRemovesOnlyItsId(e.uri, e.branch, e.mode, k);
      } else {
        KeysAfterNeutral(k, EntryPlan(e));
      }
    }
  }

  lemma {:induction false} StagingEntriesHolds(entries: seq<Context>, i: int)
    requires 0 <= i < |entries| && entries[i].mode == "test"
    ensures ContextId(entries[i].uri, entries[i].branch, "test") in StagingEntries(entries)
    decreases |entries|
  {
    if i < |entries| - 1 {
      var init := entries[..|entries| - 1];
      assert init[i] == entries[i];
      StagingEntriesHolds(init, i);
    }
  }

  /** When every test-mode entry is stored under its own staging id, restore
      leaves none of them registered. */
  lemma RestoreRemovesStagingEntries(entries: seq<Context>, keys: set<string>)
    requires forall i :: 0 <= i < |entries| && entries[i].mode == "test" ==>
               entries[i].id == ContextId(entries[i].uri, entries[i].branch, "test")
    ensures forall i :: 0 <= i < |entries| && entries[i].mode == "test" ==>
              entries[i].id !in KeysAfter(keys, RestorePlan(entries))
  {
    RestorePlanKeys(entries, keys);
    forall i | 0 <= i < |entries| && entries[i].mode == "test"
      ensures entries[i].id !in KeysAfter(keys, RestorePlan(entries))
    {
      StagingEntriesHolds(entries, i);
    }
  }

  /** The loop of `restore`: one entry at a time, in registry order. */
  method Restore(entries: seq<Context>) returns (steps: seq<Step>)
    ensures steps == RestorePlan(entries)
  {
    steps := [];
    var i := 0;
    while i < |entries|
      invariant 0 <= i <= |entries|
      invariant steps == RestorePlan(entries[..i])
    {
      var ctx := entries[i];
      if ctx.mode == "test" {
        steps := steps + DestroyPlan(ctx.uri, ctx.branch, ctx.mode);
      } else {
        steps := steps + [Clone(ctx.id), Trigger(ctx.id, "create"), Start(ctx.id), Callback("restore")];
      }
      assert entries[..i + 1][..i] == entries[..i];
      i := i + 1;
    }
    assert entries[..|entries|] == entries;
  }
}
