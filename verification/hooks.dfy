/**
 * The `/hooks` handler of `src/index.ts`: request validation, the single
 * debounce slot `debounceTimeout`, and what the timer callback runs.
 *
 * Time is abstract: `Fire` stands for the moment the pending timer expires,
 * `DebounceMs` after the last accepted request. The subprocess is represented
 * by its command line and working directory only.
 */
module Hooks {
  import opened Wrappers
  import Scanner

  /** The query parameters of one request; `None` is a parameter that is absent. */
  datatype HookParams = HookParams(
    shell: Option<string>,   // script base name
    dir: Option<string>,     // working directory
    kind: Option<string>,    // `type`: "function", or anything else for a shell run
    fn: Option<string>)      // function name in function mode

  datatype Body = ErrorBody(error: string) | MessageBody(message: string)
  datatype Response = Response(status: int, body: Body)

  const MissingShell: string := "Shell script not specified in query parameters"
  const Scheduled: string := "Script execution scheduled"
  /** The delay the timer is armed with: 1000 * 10 ms. */
  const DebounceMs: nat := 1000 * 10

  /** JavaScript truthiness of an optional string: present and not empty. */
  predicate Truthy(s: Option<string>) {
    s.Some? && s.value != ""
  }

  /** A request passes validation exactly when `shell` is truthy; nothing else is checked. */
  predicate Accepted(p: HookParams) {
    Truthy(p.shell)
  }

  /** The response sent at once: it depends on nothing but the validation outcome. */
  function Respond(p: HookParams): (r: Response)
    ensures r.status == 200 <==> Accepted(p)
    ensures r.status == 400 <==> !Accepted(p)
    ensures r.status == 200 ==> r.body == MessageBody(Scheduled)
    ensures r.status == 400 ==> r.body == ErrorBody(MissingShell)
  {
    if Accepted(p) then Response(200, MessageBody(Scheduled))
    else Response(400, ErrorBody(MissingShell))
  }

  /** What the timer callback closes over: the script, the chosen directory, `type` and `fn`. */
  datatype Job = Job(script: string, dir: string, kind: Option<string>, fn: Option<string>)

  /** `queryObject.dir || __dirname`: the requested directory, unless it is absent or empty. */
  function ScriptDir(p: HookParams, moduleDir: string): (d: string)
    ensures p.dir.Some? && p.dir.value != "" ==> d == p.dir.value
    ensures p.dir == None || p.dir == Some("") ==> d == moduleDir
    ensures d == "" ==> moduleDir == ""
  {
    if Truthy(p.dir) then p.dir.value else moduleDir
  }

  /** The job an accepted request schedules. */
  function JobOf(p: HookParams, moduleDir: string): Job
    requires Accepted(p)
  {
    Job(p.shell.value, ScriptDir(p, moduleDir), p.kind, p.fn)
  }

  /** What running a job does. */
  datatype Action =
    | ScanPost(dir: string)                   // scan `dir` and replace the stored posts
    | Todo                                    // an unsupported function: only logged
    | Exec(command: string, cwd: string)      // a shell command in a working directory

  /** `path.resolve(p)` against the process's working directory, without normalisation. */
  function Resolve(processCwd: string, p: string): (r: string)
    ensures |p| > 0 && p[0] == '/' ==> r == p
    ensures !(|p| > 0 && p[0] == '/') ==> |r| > |processCwd| && r[..|processCwd|] == processCwd
    ensures |r| >= |p| && r[|r| - |p|..] == p
  {
    if |p| > 0 && p[0] == '/' then p else Scanner.PathJoin(processCwd, p)
  }

  /** The body of the timer callback: function mode is chosen by `type` alone, `fn`
    * picks the scan or the no-op, and every other `type` runs the script. */
  function Dispatch(job: Job, processCwd: string): (a: Action)
    ensures a.Exec? <==> job.kind != Some("function")
    ensures a.ScanPost? <==> job.kind == Some("function") && job.fn == Some("scanPost")
    ensures a.ScanPost? ==> a.dir == job.dir
    ensures a.Exec? ==> a.command == "sh " + job.script + ".sh" && a.cwd == Resolve(processCwd, job.dir)
  {
    if job.kind == Some("function") then
      if job.fn == Some("scanPost") then ScanPost(job.dir) else Todo
    else
      Exec("sh " + job.script + ".sh", Resolve(processCwd, job.dir))
  }

  // ---------------------------------------------------------------------
  // The module-level slot, as an object
  // ---------------------------------------------------------------------

  /** The server's state: `debounceTimeout`, holding the job whose timer is pending. */
  class HookServer {
    const moduleDir: string
    var pending: Option<Job>

    constructor (moduleDir: string)
      ensures this.moduleDir == moduleDir && pending == None
    {
      this.moduleDir := moduleDir;
      pending := None;
    }

    /** `POST /hooks`: reject a request without `shell`, leaving the slot alone;
      * otherwise cancel whatever is pending and install this request's job. */
    method Hook(params: HookParams) returns (response: Response)
      modifies this
      ensures response == Respond(params)
      ensures !Accepted(params) ==> pending == old(pending)
      ensures Accepted(params) ==> pending == Some(JobOf(params, moduleDir))
    {
      var script := params.shell;
      var scriptDir := ScriptDir(params, moduleDir);
      if !Truthy(script) {
        return Response(400, ErrorBody(MissingShell));
      }
      if pending.Some? {
        pending := None;   // clearTimeout
      }
      pending := Some(Job(script.value, scriptDir, params.kind, params.fn));
      return Response(200, MessageBody(Scheduled));
    }

    /** The pending timer expires: its job is the one to run, and nothing is pending any more. */
    method Fire() returns (job: Option<Job>)
      modifies this
      ensures job == old(pending) && pending == None
    {
      job := pending;
      pending := None;
    }
  }

  // ---------------------------------------------------------------------
  // Runs of events, as values
  // ---------------------------------------------------------------------

  datatype Event = Trigger(params: HookParams) | Timeout

  /** The slot, the responses sent and the jobs run so far. */
  datatype Trace = Trace(pending: Option<Job>, responses: seq<Response>, fired: seq<Job>)

  function Step(t: Trace, e: Event, moduleDir: string): Trace {
    match e
    case Trigger(p) =>
      Trace(if Accepted(p) then Some(JobOf(p, moduleDir)) else t.pending, t.responses + [Respond(p)], t.fired)
    case Timeout =>
      Trace(None, t.responses, t.fired + (if t.pending.Some? then [t.pending.value] else []))
  }

  /** The trace after `events`, one after another, starting from `t`. */
  function Run(t: Trace, events: seq<Event>, moduleDir: string): Trace
    decreases |events|
  {
    if events == [] then t
    else Step(Run(t, events[..|events| - 1], moduleDir), events[|events| - 1], moduleDir)
  }

  /** The server handles `events` in order, with a fresh slot, and reports what it answered and ran. */
  method Serve(moduleDir: string, events: seq<Event>) returns (responses: seq<Response>, fired: seq<Job>)
    ensures responses == Run(Trace(None, [], []), events, moduleDir).responses
    ensures fired == Run(Trace(None, [], []), events, moduleDir).fired
  {
    var server := new HookServer(moduleDir);
    responses, fired := [], [];
    var i := 0;
    while i < |events|
      invariant 0 <= i <= |events|
      invariant Run(Trace(None, [], []), events[..i], moduleDir) == Trace(server.pending, responses, fired)
      invariant server.moduleDir == moduleDir
    {
      assert events[..i + 1][..i] == events[..i];
      match events[i] {
        case Trigger(p) =>
          var response := server.Hook(p);
          responses := responses + [response];
        case Timeout =>
          var job := server.Fire();
          if job.Some? {
            fired := fired + [job.value];
          }
      }
      i := i + 1;
    }
    assert events[..i] == events;
  }

  /** Running `a + b` is running `a`, then `b`. */
  lemma {:induction false} RunAppend(t: Trace, a: seq<Event>, b: seq<Event>, moduleDir: string)
    ensures Run(t, a + b, moduleDir) == Run(Run(t, a, moduleDir), b, moduleDir)
    decreases |b|
  {
    if b == [] {
      assert a + b == a;
    } else {
      var n := |b| - 1;
      assert (a + b)[..|a + b| - 1] == a + b[..n];
      assert (a + b)[|a + b| - 1] == b[n];
      RunAppend(t, a, b[..n], moduleDir);
    }
  }

  /** Two events, one after the other. */
  lemma RunTwo(t: Trace, e1: Event, e2: Event, moduleDir: string)
    ensures Run(t, [e1, e2], moduleDir) == Step(Step(t, e1, moduleDir), e2, moduleDir)
  {
    var two := [e1, e2];
    assert two[..1] == [e1];
    assert two[..1][..0] == [];
    assert Run(t, two[..1], moduleDir) == Step(Run(t, [], moduleDir), e1, moduleDir);
  }

  /** The events of a burst of requests with no timer expiry between them. */
  function Triggers(ps: seq<HookParams>): (evs: seq<Event>)
    ensures |evs| == |ps|
    ensures forall i :: 0 <= i < |ps| ==> evs[i] == Trigger(ps[i])
  {
    seq(|ps|, i requires 0 <= i < |ps| => Trigger(ps[i]))
  }

  /** A burst runs no job, and answers each request at once by its own validation outcome
    * alone, whatever is pending and whatever `type` and `fn` say. */
  lemma {:induction false} BurstAnswers(t: Trace, ps: seq<HookParams>, moduleDir: string)
    ensures Run(t, Triggers(ps), moduleDir).fired == t.fired
    ensures |Run(t, Triggers(ps), moduleDir).responses| == |t.responses| + |ps|
    ensures forall i :: 0 <= i < |ps| ==>
              Run(t, Triggers(ps), moduleDir).responses[|t.responses| + i] ==
              (if Accepted(ps[i]) then Response(200, MessageBody(Scheduled))
               else Response(400, ErrorBody(MissingShell)))
    ensures Run(t, Triggers(ps), moduleDir).responses[..|t.responses|] == t.responses
    decreases |ps|
  {
    if ps != [] {
      var n := |ps| - 1;
      assert Triggers(ps)[..n] == Triggers(ps[..n]);
      BurstAnswers(t, ps[..n], moduleDir);
    }
  }

  /** A burst in which no request is accepted leaves the slot as it was. */
  lemma {:induction false} RejectedBurstKeepsSlot(t: Trace, ps: seq<HookParams>, moduleDir: string)
    requires forall i :: 0 <= i < |ps| ==> !Accepted(ps[i])
    ensures Run(t, Triggers(ps), moduleDir).pending == t.pending
    decreases |ps|
  {
    if ps != [] {
      var n := |ps| - 1;
      assert Triggers(ps)[..n] == Triggers(ps[..n]);
      RejectedBurstKeepsSlot(t, ps[..n], moduleDir);
    }
  }

  /** After a burst, the slot holds the job of the last accepted request of the burst. */
  lemma {:induction false} BurstKeepsLastAccepted(t: Trace, ps: seq<HookParams>, k: nat, moduleDir: string)
    requires k < |ps| && Accepted(ps[k])
    requires forall j :: k < j < |ps| ==> !Accepted(ps[j])
    ensures Run(t, Triggers(ps), moduleDir).pending == Some(JobOf(ps[k], moduleDir))
    decreases |ps|
  {
    var n := |ps| - 1;
    assert Triggers(ps)[..n] == Triggers(ps[..n]);
    if k < n {
      BurstKeepsLastAccepted(t, ps[..n], k, moduleDir);
    }
  }

  /** Last trigger wins: a burst followed by one timer expiry runs exactly the job of the
    * last accepted request; every earlier job of the burst, and whatever was pending
    * before it, is dropped without running. */
  lemma LastTriggerWins(t: Trace, ps: seq<HookParams>, k: nat, moduleDir: string)
    requires k < |ps| && Accepted(ps[k])
    requires forall j :: k < j < |ps| ==> !Accepted(ps[j])
    ensures Run(t, Triggers(ps) + [Timeout], moduleDir).fired == t.fired + [JobOf(ps[k], moduleDir)]
    ensures Run(t, Triggers(ps) + [Timeout], moduleDir).pending == None
  {
    BurstKeepsLastAccepted(t, ps, k, moduleDir);
    BurstAnswers(t, ps, moduleDir);
    RunAppend(t, Triggers(ps), [Timeout], moduleDir);
    assert Run(Run(t, Triggers(ps), moduleDir), [Timeout], moduleDir)
        == Step(Run(Run(t, Triggers(ps), moduleDir), [], moduleDir), Timeout, moduleDir);
  }

  /** The events of requests each followed by its timer's expiry. */
  function Spaced(ps: seq<HookParams>): (evs: seq<Event>)
    ensures |evs| == 2 * |ps|
    decreases |ps|
  {
    if ps == [] then [] else Spaced(ps[..|ps| - 1]) + [Trigger(ps[|ps| - 1]), Timeout]
  }

  /** The jobs of the accepted requests among `ps`, in order of arrival. */
  function AcceptedJobs(ps: seq<HookParams>, moduleDir: string): (jobs: seq<Job>)
    ensures |jobs| <= |ps|
    decreases |ps|
  {
    if ps == [] then []
    else
      var last := ps[|ps| - 1];
      AcceptedJobs(ps[..|ps| - 1], moduleDir) + (if Accepted(last) then [JobOf(last, moduleDir)] else [])
  }

  /** Requests spaced farther apart than the delay, starting with nothing pending: every
    * accepted request's job runs exactly once, in order of arrival; a request answered
    * 400 runs nothing; nothing is left pending. */
  lemma {:induction false} SpacedRequestsAllRun(t: Trace, ps: seq<HookParams>, moduleDir: string)
    requires t.pending == None
    ensures Run(t, Spaced(ps), moduleDir).pending == None
    ensures Run(t, Spaced(ps), moduleDir).fired == t.fired + AcceptedJobs(ps, moduleDir)
    decreases |ps|
  {
    if ps == [] {
      assert t.fired + [] == t.fired;
    } else {
      var n := |ps| - 1;
      SpacedRequestsAllRun(t, ps[..n], moduleDir);
      var mid := Run(t, Spaced(ps[..n]), moduleDir);
      RunAppend(t, Spaced(ps[..n]), [Trigger(ps[n]), Timeout], moduleDir);
      RunTwo(mid, Trigger(ps[n]), Timeout, moduleDir);
    }
  }

  /** What one accepted request eventually runs, in terms of its own parameters, whatever
    * was pending when it arrived (the new request replaces that job):
    * function mode scans `dir` itself (or the module directory) with no sub-folder,
    * an unknown function only logs, and any other `type`, absent included, runs
    * `sh <shell>.sh` in the resolved directory. */
  lemma RequestOutcome(t: Trace, p: HookParams, moduleDir: string, processCwd: string)
    requires Accepted(p)
    ensures |Run(t, [Trigger(p), Timeout], moduleDir).fired| == |t.fired| + 1
    ensures var a := Dispatch(Run(t, [Trigger(p), Timeout], moduleDir).fired[|t.fired|], processCwd);
            var dir := if p.dir.Some? && p.dir.value != "" then p.dir.value else moduleDir;
            && (p.kind == Some("function") && p.fn == Some("scanPost") ==> a == ScanPost(dir))
            && (p.kind == Some("function") && p.fn != Some("scanPost") ==> a == Todo)
            && (p.kind != Some("function") ==>
                  a.Exec? && a.command == "sh " + p.shell.value + ".sh" && a.cwd == Resolve(processCwd, dir))
  {
    RunTwo(t, Trigger(p), Timeout, moduleDir);
  }

  // ---------------------------------------------------------------------
  // The scanPost job and the record store
  // ---------------------------------------------------------------------

  /** The post table: `batchCreatePost` deletes every row, then inserts the batch. */
  class PostStore {
    var posts: seq<Scanner.Post>

    constructor ()
      ensures posts == []
    {
      posts := [];
    }

    method ReplaceAll(batch: seq<Scanner.Post>)
      modifies this
      ensures posts == batch
    {
      posts := [];           // deleteMany({})
      posts := posts + batch; // createMany({ data: batch })
    }
  }

  /** `pipe(getMarkdownTreeMetadata, batchCreatePost)(dir)`: scan `root`, found at `dir`,
    * and publish the records; a failed scan publishes nothing. */
  method RunScanPost(dir: string, root: Scanner.Entry, parse: Scanner.Parser, store: PostStore)
    returns (r: Result<seq<Scanner.Post>, Scanner.ScanError>)
    modifies store
    ensures r == Scanner.TreeMetadata(dir, root, parse)
    ensures r.Ok? ==> store.posts == r.value
    ensures r.Err? ==> store.posts == old(store.posts)
  {
    r := Scanner.GetMarkdownTreeMetadata(dir, root, parse);
    if r.Ok? {
      store.ReplaceAll(r.value);
    }
  }
}
