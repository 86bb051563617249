/** `handleGitEvent(event, payload)` of app.js: how a GitHub webhook event
    becomes one of the pipelines `create`, `update` or `destroy`. */
module Events {
  import opened Values
  import opened Registry
  import opened Hooks
  import opened Pipeline

  /** `payload.repository`: the fields read from it, each absent or a string. */
  datatype Repo = Repo(htmlUrl: Option<string>, defaultBranch: Option<string>)

  /** The parts of a webhook payload the handler reads. */
  datatype Payload = Payload(repository: Option<Repo>, ref: Option<string>, refType: Option<string>,
                             created: Value, deleted: Value)

  /** The pipeline started for an event, or none (the handler returns
      `undefined` for any other event name). */
  datatype Op =
    | CreateOp(uri: string, branch: string)
    | UpdateOp(uri: string, branch: string)
    | DestroyOp(uri: string, branch: string)
    | NoOp

  const NoRepository := "TypeError"
  const PingError := "Ping event does not have enough information"
  const IgnoredCreate := "Ignoring create request"
  const Unresolved := "Unable to resolve uri and branch"

  /** The index of the last '/' in `s`, or -1: `s.lastIndexOf('/')`. */
  function LastSlash(s: string): (i: int)
    ensures -1 <= i < |s|
    ensures i >= 0 ==> s[i] == '/'
    ensures forall j :: i < j < |s| ==> s[j] != '/'
    decreases |s|
  {
    if s == [] then -1
    else if s[|s| - 1] == '/' then |s| - 1
    else LastSlash(s[..|s| - 1])
  }

  /** `ref.substr(ref.lastIndexOf('/') + 1)`: the last path segment. */
  function LastSegment(s: string): (r: string)
    ensures |r| <= |s| && r == s[|s| - |r|..]
    ensures forall k :: 0 <= k < |r| ==> r[k] != '/'
    ensures |r| < |s| ==> s[|s| - |r| - 1] == '/'
  {
    var i := LastSlash(s);
    s[i + 1..]
  }

  /** The branch before the event-specific rules: the default branch, or the
      last segment of `ref` when there is one. */
  function EventBranch(repo: Repo, ref: Option<string>): (b: Option<string>)
    ensures ref.None? ==> b == repo.defaultBranch
    ensures ref.Some? ==> b.Some? && forall k :: 0 <= k < |b.value| ==> b.value[k] != '/'
  {
    if ref.Some? then Some(LastSegment(ref.value)) else repo.defaultBranch
  }

  /** The event name after the event-specific rules, with the branch, or the
      error the handler throws. A `push` becomes `create` when `created` is
      loosely true, else `destroy` when `deleted` is, else `update`. */
  function Normalise(event: string, p: Payload, repo: Repo): (r: Result<(string, Option<string>), string>)
    ensures event == "ping" ==> r == Err(PingError)
    ensures r.Ok? ==> r.value.0 != "ping" && r.value.0 != "push"
    ensures event == "create" && r.Ok? ==> r.value.1 == p.ref
  {
    var branch := EventBranch(repo, p.ref);
    if event == "ping" then Err(PingError)
    else if event == "create" then
      if p.refType != Some("branch") then Err(IgnoredCreate) else Ok(("create", p.ref))
    else if event == "push" then Ok((PushEvent(p), branch))
    else Ok((event, branch))
  }

  /** What a push stands for: `created == true` first, then `deleted == true`. */
  function PushEvent(p: Payload): (e: string)
    ensures e == "create" <==> LooselyTrue(p.created)
    ensures e == "destroy" <==> !LooselyTrue(p.created) && LooselyTrue(p.deleted)
    ensures e == "update" <==> !LooselyTrue(p.created) && !LooselyTrue(p.deleted)
  {
    if LooselyTrue(p.created) then "create"
    else if LooselyTrue(p.deleted) then "destroy"
    else "update"
  }

  /** The pipeline an event name starts. */
  function Dispatch(event: string, uri: string, branch: string): (op: Op)
    ensures op.NoOp? <==> event != "create" && event != "update" && event != "destroy"
    ensures !op.NoOp? ==> op.uri == uri && op.branch == branch
  {
    if event == "create" then CreateOp(uri, branch)
    else if event == "update" then UpdateOp(uri, branch)
    else if event == "destroy" then DestroyOp(uri, branch)
    else NoOp
  }

  /** `handleGitEvent(event, payload)`. */
  function HandleGitEvent(event: string, p: Payload): (r: Result<Op, string>)
    ensures r.Ok? && !r.value.NoOp? ==> r.value.uri != "" && r.value.branch != ""
    ensures p.repository.None? ==> r == Err(NoRepository)
    ensures p.repository.Some? && event != "create" && p.ref.None? && r.Ok? && !r.value.NoOp? ==>
              Some(r.value.branch) == p.repository.value.defaultBranch
    ensures event in {"create", "push", "update", "destroy"} ==> r != Ok(NoOp)
  {
    if p.repository.None? then Err(NoRepository)
    else
      var repo := p.repository.value;
      match Normalise(event, p, repo)
      case Err(e) => Err(e)
      case Ok((ev, branch)) =>
        if repo.htmlUrl.None? || repo.htmlUrl.value == "" || branch.None? || branch.value == "" then
          Err(Unresolved)
        else
          Ok(Dispatch(ev, repo.htmlUrl.value, branch.value))
  }

  /** A ping is always refused, and so is a create event for anything but a
      branch (a tag, say). */
  lemma RefusedEvents(p: Payload)
    ensures HandleGitEvent("ping", p).Err?
    ensures p.refType != Some("branch") ==> HandleGitEvent("create", p).Err?
  {
  }

  /** A push maps to the pipelines in a fixed order: `created` first, then
      `deleted`, otherwise `update`; the branch is the last segment of the
      ref, and the uri the repository's `html_url`. */
  lemma PushMapping(p: Payload, url: string, ref: string)
    requires p.repository.Some? && p.repository.value.htmlUrl == Some(url) && url != ""
    requires p.ref == Some(ref) && LastSegment(ref) != ""
    ensures var b := LastSegment(ref);
      HandleGitEvent("push", p)
        == Ok(if LooselyTrue(p.created) then CreateOp(url, b)
              else if LooselyTrue(p.deleted) then DestroyOp(url, b)
              else UpdateOp(url, b))
  {
    var repo := p.repository.value;
    var b := LastSegment(ref);
    var ev := PushEvent(p);
    assert Normalise("push", p, repo) == Ok((ev, Some(b)));
    assert HandleGitEvent("push", p) == Ok(Dispatch(ev, url, b));
    if LooselyTrue(p.created) {
      assert Dispatch("create", url, b) == CreateOp(url, b);
    } else if LooselyTrue(p.deleted) {
      assert "destroy" != "create" && "destroy" != "update";
    } else {
      assert "update" != "create";
    }
  }

  /** A create event for a branch keeps the whole ref as the branch, slashes
      included, where a push of the same ref would use its last segment. */
  lemma CreateKeepsWholeRef(p: Payload, url: string, ref: string)
    requires p.repository.Some? && p.repository.value.htmlUrl == Some(url) && url != ""
    requires p.ref == Some(ref) && ref != "" && p.refType == Some("branch")
    ensures HandleGitEvent("create", p) == Ok(CreateOp(url, ref))
    ensures '/' in ref ==> HandleGitEvent("create", p) != HandleGitEvent("push", p.(created := Bool(true)))
  {
    if '/' in ref {
      var r := HandleGitEvent("push", p.(created := Bool(true)));
      if r.Ok? && r.value.CreateOp? {
        assert r.value.branch == LastSegment(ref);
      }
    }
  }

  /** Every other event name, `pull_request` among them, starts nothing. */
  lemma OtherEventsStartNothing(event: string, p: Payload)
    requires event !in {"ping", "create", "push", "update", "destroy"}
    ensures HandleGitEvent(event, p).Ok? ==> HandleGitEvent(event, p) == Ok(NoOp)
  {
  }

  /** The steps the started pipeline runs, given the test code it will see;
      `destroy` from a webhook tears down the release context. */
  function OpPlan(op: Op, code: ExitCode, system: map<string, Context>): (steps: seq<Step>)
    ensures op.DestroyOp? ==> steps == DestroyPlan(op.uri, op.branch, "")
    ensures op.NoOp? <==> steps == []
  {
    match op
    case CreateOp(uri, branch) => DeployPlan(ForCreate, uri, branch, code, system)
    case UpdateOp(uri, branch) => DeployPlan(ForUpdate, uri, branch, code, system)
    case DestroyOp(uri, branch) => DestroyPlan(uri, branch, "")
    case NoOp => []
  }

  /** A push that deletes a branch removes its release context and nothing
      else from the registry. */
  lemma DeletedPushRemovesRelease(p: Payload, system: map<string, Context>, keys: set<string>)
    requires HandleGitEvent("push", p).Ok?
    requires !LooselyTrue(p.created) && LooselyTrue(p.deleted)
    ensures var op := HandleGitEvent("push", p).value;
      op.DestroyOp? && KeysAfter(keys, OpPlan(op, Exited(0), system)) == keys - {ReleaseId(op.uri, op.branch)}
  {
    var op := HandleGitEvent("push", p).value;
    DestroyRemovesOnlyItsId(op.uri, op.branch, "", keys);
  }
}
