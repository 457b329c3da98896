/**
 * One push event through the worker (rabbitmq-worker main.rs): collect the
 * workflow files that parsed, keep those the push triggers, and for every
 * job of every kept workflow render its script and submit it to the
 * scheduler, classifying the reply. No failure stops the event: a file that
 * does not parse is skipped, and a job whose submission fails is followed
 * by the next job.
 *
 * Cloning, globbing, file reads and YAML parsing are inputs here: the
 * listing is the glob result (`None` when the pattern fails) with one
 * entry per globbed path, `None` where reading or parsing that file failed.
 * The scheduler is an input too: `respond(n)` is its reply to the n-th
 * submission of the event.
 */
module Pipeline {
  import opened Strings
  import opened Workflows
  import opened Triggers
  import opened Render

  // ---------------------------------------------------------------------------
  // Collecting the parsed workflows

  /** The workflows of the files that parsed, in listing order. */
  function Parsed(files: seq<Option<Workflow>>): seq<Workflow>
    decreases |files|
  {
    if files == [] then []
    else
      var init := Parsed(files[..|files| - 1]);
      var last := files[|files| - 1];
      if last.Some? then init + [last.value] else init
  }

  /** The file loop: a file that cannot be read or parsed is skipped and the loop goes on. */
  method CollectWorkflows(files: seq<Option<Workflow>>) returns (workflows: seq<Workflow>)
    ensures workflows == Parsed(files)
  {
    workflows := [];
    for i := 0 to |files|
      invariant workflows == Parsed(files[..i])
    {
      assert files[..i + 1][..i] == files[..i];
      if files[i].None? {
        continue;
      }
      workflows := workflows + [files[i].value];
    }
    assert files[..|files|] == files;
  }

  /** A workflow is collected exactly when some file parsed to it. */
  lemma {:induction false} ParsedMember(files: seq<Option<Workflow>>, w: Workflow)
    ensures w in Parsed(files) <==> Some(w) in files
    decreases |files|
  {
    if files != [] {
      var init := files[..|files| - 1];
      ParsedMember(init, w);
      assert files == init + [files[|files| - 1]];
    }
  }

  /** Files are independent: a failing file neither stops nor changes what later files contribute. */
  lemma {:induction false} ParsedAppend(a: seq<Option<Workflow>>, b: seq<Option<Workflow>>)
    ensures Parsed(a + b) == Parsed(a) + Parsed(b)
    decreases |b|
  {
    if b == [] {
      assert a + b == a;
    } else {
      var init := b[..|b| - 1];
      assert (a + b)[..|a + b| - 1] == a + init;
      ParsedAppend(a, init);
    }
  }

  // ---------------------------------------------------------------------------
  // The trigger filter

  /** `should_trigger_workflow` is defined on every workflow for this ref (the source would panic otherwise). */
  predicate AllDefined(ws: seq<Workflow>, ref: string)
  {
    forall i :: 0 <= i < |ws| ==> TriggerDefined(ws[i], ref)
  }

  /** The workflows the push triggers, in their original order. */
  function Triggered(ws: seq<Workflow>, ref: string): seq<Workflow>
    requires AllDefined(ws, ref)
    decreases |ws|
  {
    if ws == [] then []
    else
      var init := Triggered(ws[..|ws| - 1], ref);
      if ShouldTrigger(ws[|ws| - 1], ref) then init + [ws[|ws| - 1]] else init
  }

  /** A workflow runs exactly when it was collected and the push triggers it. */
  lemma {:induction false} TriggeredMember(ws: seq<Workflow>, ref: string, w: Workflow)
    requires AllDefined(ws, ref)
    ensures w in Triggered(ws, ref) <==> w in ws && TriggerDefined(w, ref) && ShouldTrigger(w, ref)
    decreases |ws|
  {
    if ws != [] {
      var init := ws[..|ws| - 1];
      TriggeredMember(init, ref, w);
      assert ws == init + [ws[|ws| - 1]];
    }
  }

  /** Filtering keeps order: the filter of two lists is the two filters one after another. */
  lemma {:induction false} TriggeredAppend(a: seq<Workflow>, b: seq<Workflow>, ref: string)
    requires AllDefined(a + b, ref)
    ensures AllDefined(a, ref) && AllDefined(b, ref)
    ensures Triggered(a + b, ref) == Triggered(a, ref) + Triggered(b, ref)
    decreases |b|
  {
    assert forall i :: 0 <= i < |a| ==> (a + b)[i] == a[i];
    assert forall i :: 0 <= i < |b| ==> (a + b)[|a| + i] == b[i];
    if b == [] {
      assert a + b == a;
    } else {
      var init := b[..|b| - 1];
      assert (a + b)[..|a + b| - 1] == a + init;
      assert AllDefined(a + init, ref) by {
        assert forall i :: 0 <= i < |a + init| ==> (a + init)[i] == (a + b)[i];
      }
      TriggeredAppend(a, init, ref);
    }
  }

  /** When no workflow lists the pushed branch, nothing runs. */
  lemma {:induction false} NothingTriggered(ws: seq<Workflow>, ref: string)
    requires AllDefined(ws, ref)
    requires forall i :: 0 <= i < |ws| ==> !ShouldTrigger(ws[i], ref)
    ensures Triggered(ws, ref) == []
    decreases |ws|
  {
    if ws != [] {
      NothingTriggered(ws[..|ws| - 1], ref);
    }
  }

  // ---------------------------------------------------------------------------
  // Submission

  /** The JSON body `{ job: { script, environment, current_working_directory } }`. */
  datatype JobRequest = JobRequest(script: string, environment: seq<string>, cwd: string)

  /** The body for a rendered script: only the restricted search path is set, and the job starts in the scheduler user's home. */
  function Request(script: string): JobRequest
  {
    JobRequest(script, ["PATH=" + SafePath], "/home/slurm")
  }

  /** The script goes out unchanged, the job starts in `/home/slurm`, and the submitted job and every step command see the same seven search directories. */
  lemma SearchPath(ctx: Context, script: string)
    ensures Split(SafePath, ':') == ["/usr/local/sbin", "/usr/local/bin", "/usr/sbin", "/usr/bin", "/sbin", "/bin", "/snap/bin"]
    ensures Request(script).script == script && Request(script).cwd == "/home/slurm"
    ensures Request(script).environment == ["PATH=" + SafePath]
    ensures BaseExports(ctx)[5] == "PATH=\"" + SafePath + "\""
  {
    SplitJoin(["/usr/local/sbin", "/usr/local/bin", "/usr/sbin", "/usr/bin", "/sbin", "/bin", "/snap/bin"], ':');
  }

  /** What the worker sees of the scheduler's reply: a status and whether the body could be read, or no reply at all. */
  datatype Response = Responded(status: int, body: Option<string>) | NoReply

  /** The outcome of one submission. Only `Submitted` is logged as a success; every outcome lets the next job go ahead. */
  datatype Outcome = Submitted(status: int, body: string) | Rejected(status: int) | BodyUnreadable(status: int) | TransportFailure

  /** `error_for_status`: client and server error classes are errors. */
  predicate ErrorStatus(status: int)
  {
    400 <= status <= 599
  }

  function Classify(r: Response): (o: Outcome)
    ensures o.TransportFailure? <==> r.NoReply?
    ensures o.Rejected? <==> r.Responded? && ErrorStatus(r.status)
    ensures o.BodyUnreadable? <==> r.Responded? && !ErrorStatus(r.status) && r.body.None?
    ensures o.Submitted? <==> r.Responded? && !ErrorStatus(r.status) && r.body.Some?
    ensures r.Responded? && !o.TransportFailure? ==> o.status == r.status
    ensures o.Submitted? ==> o.body == r.body.value
  {
    match r
    case NoReply => TransportFailure
    case Responded(status, body) =>
      if ErrorStatus(status) then Rejected(status)
      else if body.None? then BodyUnreadable(status)
      else Submitted(status, body.value)
  }

  // ---------------------------------------------------------------------------
  // The dispatch plan and the dispatch loop

  /** A job due for submission, with the action list of its workflow. */
  datatype PlannedJob = PlannedJob(actions: string, jobName: string, job: Job)

  /** One workflow's jobs in map order; every job sees the workflow's whole action list. */
  function JobsPlan(actions: string, jobs: seq<(string, Job)>): (r: seq<PlannedJob>)
    ensures |r| == |jobs|
    ensures forall j :: 0 <= j < |jobs| ==> r[j].jobName == jobs[j].0 && r[j].job == jobs[j].1 && r[j].actions == actions
  {
    seq(|jobs|, j requires 0 <= j < |jobs| => PlannedJob(actions, jobs[j].0, jobs[j].1))
  }

  lemma JobsPlanSnoc(actions: string, jobs: seq<(string, Job)>, j: int)
    requires 0 <= j < |jobs|
    ensures JobsPlan(actions, jobs[..j + 1]) == JobsPlan(actions, jobs[..j]) + [PlannedJob(actions, jobs[j].0, jobs[j].1)]
  {
  }

  /** The jobs of the triggered workflows, one workflow after another. */
  function Plan(ws: seq<Workflow>): seq<PlannedJob>
    decreases |ws|
  {
    if ws == [] then []
    else
      var last := ws[|ws| - 1];
      Plan(ws[..|ws| - 1]) + JobsPlan(ActionList(last), last.jobs)
  }

  /** One job submitted, with the outcome of its submission. */
  datatype Submission = Submission(jobName: string, request: JobRequest, outcome: Outcome)

  /** Submitting a planned job: its rendered script goes out, and `r` is the reply. */
  function Submit(ctx: Context, p: PlannedJob, r: Response): Submission
  {
    Submission(p.jobName, Request(Script(ctx, p.actions, p.jobName, p.job)), Classify(r))
  }

  /** The log records the planned jobs in order, the n-th answered by `respond(n)`. */
  predicate Follows(ctx: Context, log: seq<Submission>, plan: seq<PlannedJob>, respond: nat -> Response)
  {
    && |log| == |plan|
    && forall n :: 0 <= n < |log| ==> log[n] == Submit(ctx, plan[n], respond(n))
  }

  lemma FollowsSnoc(ctx: Context, log: seq<Submission>, plan: seq<PlannedJob>, respond: nat -> Response, p: PlannedJob)
    requires Follows(ctx, log, plan, respond)
    ensures Follows(ctx, log + [Submit(ctx, p, respond(|log|))], plan + [p], respond)
  {
  }

  /** The body of the job loop: render the script, send it, classify the reply. */
  method SubmitJob(ctx: Context, actions: string, jobName: string, job: Job, reply: Response) returns (submission: Submission)
    ensures submission == Submit(ctx, PlannedJob(actions, jobName, job), reply)
  {
    var script := RenderJob(ctx, actions, jobName, job);
    var request := Request(script);
    var outcome := Classify(reply);
    submission := Submission(jobName, request, outcome);
  }

  /** The job loop of one workflow, appending to the log of the workflows before it. */
  method DispatchWorkflow(ctx: Context, w: Workflow, respond: nat -> Response, ghost before: seq<PlannedJob>, log0: seq<Submission>)
    returns (log: seq<Submission>)
    requires Follows(ctx, log0, before, respond)
    ensures Follows(ctx, log, before + JobsPlan(ActionList(w), w.jobs), respond)
  {
    var actions := ActionList(w);
    log := log0;
    ghost var plan := before;
    for j := 0 to |w.jobs|
      invariant plan == before + JobsPlan(actions, w.jobs[..j])
      invariant Follows(ctx, log, plan, respond)
    {
      var (jobName, job) := w.jobs[j];
      var submission := SubmitJob(ctx, actions, jobName, job, respond(|log|));
      ghost var p := PlannedJob(actions, jobName, job);
      FollowsSnoc(ctx, log, plan, respond, p);
      JobsPlanSnoc(actions, w.jobs, j);
      log := log + [submission];
      plan := plan + [p];
    }
    assert w.jobs[..|w.jobs|] == w.jobs;
  }

  /** The workflow loop: every job of every triggered workflow is submitted in turn, whatever the earlier outcomes. */
  method Dispatch(ctx: Context, ws: seq<Workflow>, respond: nat -> Response) returns (log: seq<Submission>)
    ensures Follows(ctx, log, Plan(ws), respond)
  {
    log := [];
    for i := 0 to |ws|
      invariant Follows(ctx, log, Plan(ws[..i]), respond)
    {
      log := DispatchWorkflow(ctx, ws[i], respond, Plan(ws[..i]), log);
      assert ws[..i + 1][..i] == ws[..i];
    }
    assert ws[..|ws|] == ws;
  }

  /** Every file that parsed gave a workflow whose maps have distinct keys, as deserialising into hash maps guarantees. */
  predicate AllWellFormed(files: seq<Option<Workflow>>)
  {
    forall i :: 0 <= i < |files| && files[i].Some? ==> WellFormed(files[i].value)
  }

  /** One push event, from the listing of workflow files to the submission log. */
  method ProcessEvent(ctx: Context, listing: Option<seq<Option<Workflow>>>, respond: nat -> Response) returns (log: seq<Submission>)
    requires listing.Some? ==> AllWellFormed(listing.value)
    requires listing.Some? ==> AllDefined(Parsed(listing.value), ctx.ref)
    ensures listing.None? ==> log == []
    ensures listing.Some? ==> Follows(ctx, log, Plan(Triggered(Parsed(listing.value), ctx.ref)), respond)
  {
    log := [];
    if listing.None? {
      return;
    }
    var workflows := CollectWorkflows(listing.value);
    var toRun := Triggered(workflows, ctx.ref);
    if toRun == [] {
      return;
    }
    log := Dispatch(ctx, toRun, respond);
  }

  // ---------------------------------------------------------------------------
  // Properties of the plan

  function JobCount(ws: seq<Workflow>): nat
    decreases |ws|
  {
    if ws == [] then 0 else JobCount(ws[..|ws| - 1]) + |ws[|ws| - 1].jobs|
  }

  /** Exactly one submission per job of every triggered workflow. */
  lemma {:induction false} PlanCount(ws: seq<Workflow>)
    ensures |Plan(ws)| == JobCount(ws)
    decreases |ws|
  {
    if ws != [] {
      PlanCount(ws[..|ws| - 1]);
    }
  }

  /** The plan for several workflows is their plans one after another. */
  lemma {:induction false} PlanAppend(a: seq<Workflow>, b: seq<Workflow>)
    ensures Plan(a + b) == Plan(a) + Plan(b)
    decreases |b|
  {
    if b == [] {
      assert a + b == a;
    } else {
      var init, last := b[..|b| - 1], b[|b| - 1];
      var jobs := JobsPlan(ActionList(last), last.jobs);
      assert (a + b)[..|a + b| - 1] == a + init;
      assert (a + b)[|a + b| - 1] == last;
      assert Plan(a + b) == Plan(a + init) + jobs;
      assert Plan(b) == Plan(init) + jobs;
      PlanAppend(a, init);
      assert Plan(a) + Plan(init) + jobs == Plan(a) + (Plan(init) + jobs);
    }
  }

  /** Every job of a triggered workflow is planned, with that workflow's action list. */
  lemma {:induction false} PlanMember(ws: seq<Workflow>, i: int, j: int)
    requires 0 <= i < |ws| && 0 <= j < |ws[i].jobs|
    ensures PlannedJob(ActionList(ws[i]), ws[i].jobs[j].0, ws[i].jobs[j].1) in Plan(ws)
    decreases |ws|
  {
    var n := |ws| - 1;
    if i == n {
      assert JobsPlan(ActionList(ws[n]), ws[n].jobs)[j] == PlannedJob(ActionList(ws[i]), ws[i].jobs[j].0, ws[i].jobs[j].1);
    } else {
      PlanMember(ws[..n], i, j);
    }
  }

  /** Whatever the scheduler answers, every job of every triggered workflow is submitted once its turn comes: some entry of the log carries its name and its rendered script. */
  lemma EveryJobSubmitted(ctx: Context, log: seq<Submission>, ws: seq<Workflow>, respond: nat -> Response, i: int, j: int)
    requires Follows(ctx, log, Plan(ws), respond)
    requires 0 <= i < |ws| && 0 <= j < |ws[i].jobs|
    ensures exists n :: 0 <= n < |log| && log[n] == Submit(ctx, PlannedJob(ActionList(ws[i]), ws[i].jobs[j].0, ws[i].jobs[j].1), respond(n))
  {
    var p := PlannedJob(ActionList(ws[i]), ws[i].jobs[j].0, ws[i].jobs[j].1);
    PlanMember(ws, i, j);
    var n :| 0 <= n < |Plan(ws)| && Plan(ws)[n] == p;
    assert log[n] == Submit(ctx, p, respond(n));
  }

  /** With the job names distinct, the plan of a workflow enumerates its `jobs` map: one planned job per key, each carrying that key's job, and no key left out. */
  lemma JobsPlanIsMap(w: Workflow)
    requires WellFormed(w)
    ensures var plan := JobsPlan(ActionList(w), w.jobs);
      && |plan| == |ToMap(w.jobs)|
      && (forall j :: 0 <= j < |plan| ==> plan[j].jobName in ToMap(w.jobs) && ToMap(w.jobs)[plan[j].jobName] == plan[j].job)
      && (forall k :: k in ToMap(w.jobs) ==> exists j :: 0 <= j < |plan| && plan[j].jobName == k)
  {
    var plan := JobsPlan(ActionList(w), w.jobs);
    ToMapExact(w.jobs);
    forall k | k in ToMap(w.jobs) ensures exists j :: 0 <= j < |plan| && plan[j].jobName == k {
      var j :| 0 <= j < |w.jobs| && w.jobs[j].0 == k;
      assert plan[j].jobName == k;
    }
  }

  /** A workflow's planned jobs have pairwise distinct names, so their scripts stage actions into pairwise distinct cache directories. */
  lemma JobsPlanDistinct(ctx: Context, w: Workflow)
    requires WellFormed(w)
    ensures var plan := JobsPlan(ActionList(w), w.jobs);
      forall a, b :: 0 <= a < b < |plan| ==> plan[a].jobName != plan[b].jobName && CacheDir(ctx, plan[a].jobName) != CacheDir(ctx, plan[b].jobName)
  {
    var plan := JobsPlan(ActionList(w), w.jobs);
    forall a, b | 0 <= a < b < |plan|
      ensures plan[a].jobName != plan[b].jobName && CacheDir(ctx, plan[a].jobName) != CacheDir(ctx, plan[b].jobName)
    {
      CacheDirInjective(ctx, plan[a].jobName, plan[b].jobName);
    }
  }

  /** Every workflow an event runs came from a file that parsed, so within it no two submitted jobs share a name or an action cache directory. */
  lemma RunJobsDistinct(ctx: Context, files: seq<Option<Workflow>>, w: Workflow)
    requires AllWellFormed(files)
    requires AllDefined(Parsed(files), ctx.ref)
    requires w in Triggered(Parsed(files), ctx.ref)
    ensures var plan := JobsPlan(ActionList(w), w.jobs);
      forall a, b :: 0 <= a < b < |plan| ==> plan[a].jobName != plan[b].jobName && CacheDir(ctx, plan[a].jobName) != CacheDir(ctx, plan[b].jobName)
  {
    TriggeredMember(Parsed(files), ctx.ref, w);
    ParsedMember(files, w);
    var i :| 0 <= i < |files| && files[i] == Some(w);
    JobsPlanDistinct(ctx, w);
  }
}
