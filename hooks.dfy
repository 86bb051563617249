/** The read-only decisions around the external collaborators of core.js:
    which hook script `trigger` runs (and its fallback when there is none),
    whether `create` and `update` pin a commit, and the process-manager name
    of a context. */
module Hooks {
  import opened Values
  import opened Registry

  /** The exit status a shell run reports: a number, or `null` when the
      process was ended by a signal. */
  datatype ExitCode = Exited(n: int) | Signalled

  /** `if (code)` on an exit status: only a non-zero number is truthy. */
  predicate Failed(code: ExitCode) {
    code.Exited? && code.n != 0
  }

  /** The outcome a hook callback receives: `(code, output)`. */
  datatype HookResult = HookResult(code: ExitCode, output: string)

  /** A hook script to run from a directory, or no runnable file at all. */
  datatype HookPlan = Run(script: string, cwd: string) | NoFile

  /** `ctx.config.hooksDir || 'hooks'`; `None` when the value is truthy but
      not a string, where `path.join` throws and `trigger` falls back. */
  function HooksDir(config: Config): (d: Option<string>)
    ensures !Truthy(Lookup(config, "hooksDir")) ==> d == Some("hooks")
    ensures Lookup(config, "hooksDir").Str? && Truthy(Lookup(config, "hooksDir")) ==> d == Some(Lookup(config, "hooksDir").s)
    ensures Truthy(Lookup(config, "hooksDir")) && !Lookup(config, "hooksDir").Str? ==> d.None?
    ensures d.Some? ==> d.value != ""
  {
    var v := Lookup(config, "hooksDir");
    if !Truthy(v) then Some("hooks") else if v.Str? then Some(v.s) else None
  }

  /** The two places a hook may live, in the order `selectExists` tries
      them: `<dir>/branchoff@<event>` run from `<dir>`, then
      `<dir>/<hooksDir>/<event>` run from `<dir>/<hooksDir>`. */
  function HookCandidates(dir: string, hooksDir: string, event: string): (cs: seq<(string, string)>)
    ensures |cs| == 2
    ensures cs[0].1 == dir && cs[0].0 == JoinPath(cs[0].1, "branchoff@" + event)
    ensures cs[1].1 == JoinPath(dir, hooksDir) && cs[1].0 == JoinPath(cs[1].1, event)
  {
    [ (JoinPath(dir, "branchoff@" + event), dir),
      (JoinPath(JoinPath(dir, hooksDir), event), JoinPath(dir, hooksDir)) ]
  }

  /** `selectExists(paths)`: the first candidate that exists and is not a
      directory; `isFile` stands for `fs.statSync(p).isDirectory() === false`
      on a path that exists. */
  function SelectExists(paths: seq<(string, string)>, isFile: string -> bool): (r: Option<(string, string)>)
    ensures r.Some? ==> r.value in paths && isFile(r.value.0)
    ensures r.None? <==> forall i :: 0 <= i < |paths| ==> !isFile(paths[i].0)
    ensures r.Some? ==> exists i :: 0 <= i < |paths| && paths[i] == r.value
                          && forall j :: 0 <= j < i ==> !isFile(paths[j].0)
  {
    if paths == [] then None
    else if isFile(paths[0].0) then Some(paths[0])
    else
      var rest := SelectExists(paths[1..], isFile);
      if rest.Some? then
        var i :| 0 <= i < |paths[1..]| && paths[1..][i] == rest.value
                 && forall j :: 0 <= j < i ==> !isFile(paths[1..][j].0);
        assert paths[i + 1] == rest.value;
        assert forall j :: 1 <= j < i + 1 ==> paths[j] == paths[1..][j - 1];
        rest
      else
        assert forall i :: 1 <= i < |paths| ==> paths[i] == paths[1..][i - 1];
        rest
  }

  /** The hook `trigger` would run for `event`, given the loaded config:
      the per-checkout script when it is a file, else the one in the hooks
      directory, else none; and none at all when the hooks directory setting
      makes `path.join` throw. */
  function PlanHook(ctx: Context, config: Config, event: string, isFile: string -> bool): (p: HookPlan)
    ensures p.Run? ==> isFile(p.script)
    ensures HooksDir(config).None? ==> p == NoFile
    ensures HooksDir(config).Some? ==>
      var hd := HooksDir(config).value;
      var first := JoinPath(ctx.dir, "branchoff@" + event);
      var second := JoinPath(JoinPath(ctx.dir, hd), event);
      && (isFile(first) ==> p == Run(first, ctx.dir))
      && (!isFile(first) && isFile(second) ==> p == Run(second, JoinPath(ctx.dir, hd)))
      && (!isFile(first) && !isFile(second) ==> p == NoFile)
  {
    match HooksDir(config)
    case None => NoFile
    case Some(hd) =>
      match SelectExists(HookCandidates(ctx.dir, hd, event), isFile)
      case Some(c) => Run(c.0, c.1)
      case None => NoFile
  }

  /** What `trigger` reports: the shell run's result when a hook was found,
      otherwise code 0 and output "No file". */
  function TriggerResult(plan: HookPlan, ran: HookResult): (r: HookResult)
    ensures plan.NoFile? ==> r == HookResult(Exited(0), "No file") && !Failed(r.code)
    ensures plan.Run? ==> r == ran
  {
    if plan.NoFile? then HookResult(Exited(0), "No file") else ran
  }

  /** With neither candidate a file, or a hooks directory setting that
      makes `path.join` throw, `trigger` is a silent success whatever the
      shell would have reported; when a hook runs, its result is passed on. */
  lemma MissingHookIsSuccess(ctx: Context, config: Config, event: string, isFile: string -> bool, ran: HookResult)
    ensures var first := JoinPath(ctx.dir, "branchoff@" + event);
      (HooksDir(config).None? ||
       (!isFile(first) && !isFile(JoinPath(JoinPath(ctx.dir, HooksDir(config).value), event)))) ==>
        TriggerResult(PlanHook(ctx, config, event, isFile), ran) == HookResult(Exited(0), "No file")
    ensures HooksDir(config).Some? && isFile(JoinPath(ctx.dir, "branchoff@" + event)) ==>
      TriggerResult(PlanHook(ctx, config, event, isFile), ran) == ran
  {
  }

  /** `commit = commit || ctx.commit`, then a reset to it only when it is a
      string other than "latest" in any letter case. */
  function PinnedCommit(arg: Option<string>, ctxCommit: Option<string>): (r: Option<string>)
    ensures r.Some? ==> Lower(r.value) != "latest"
    ensures r.Some? ==> (arg.Some? && arg.value != "" && r == arg) || ((arg.None? || arg == Some("")) && r == ctxCommit)
    ensures var c := if arg.Some? && arg.value != "" then arg else ctxCommit;
      c.Some? && Lower(c.value) != "latest" ==> r == c
  {
    var chosen := if arg.Some? && arg.value != "" then arg else ctxCommit;
    if chosen.Some? && Lower(chosen.value) != "latest" then chosen else None
  }

  predicate SameIgnoringAsciiCase(a: string, b: string) {
    |a| == |b| && forall i :: 0 <= i < |a| ==> LowerChar(a[i]) == LowerChar(b[i])
  }

  /** The commit is pinned unless it is "latest" in some letter case: every
      spelling such as "Latest" or "LATEST" tracks the branch head, and every
      other string is reset to. */
  lemma PinnedCommitLatest(c: string)
    ensures PinnedCommit(None, Some(c)).None? <==> SameIgnoringAsciiCase(c, "latest")
    ensures PinnedCommit(None, None).None?
  {
    if SameIgnoringAsciiCase(c, "latest") {
      assert Lower(c) == "latest";
    }
  }

  /** The process-manager name `[port, branch, mode].join('-')`. */
  function ProcessName(ctx: Context): string {
    IntText(ctx.port) + "-" + ctx.branch + "-" + ctx.mode
  }

  /** The name leads with the port's digits and the port can be read back
      from the text before the first dash. */
  lemma ProcessNameCarriesPort(ctx: Context)
    requires ctx.port >= 0
    ensures var name := ProcessName(ctx); var d := Digits(ctx.port);
      |name| > |d| && name[..|d|] == d && name[|d|] == '-'
      && (forall i :: 0 <= i < |d| ==> name[i] != '-')
      && ParseDigits(name[..|d|]) == ctx.port
  {
    DigitsRoundTrip(ctx.port);
  }
}
