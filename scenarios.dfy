/**
 * End-to-end runs of the pipeline on small inputs, stated about every log
 * `ProcessEvent` can return for them (its postcondition is `Follows`).
 */
module Scenarios {
  import opened Strings
  import opened Workflows
  import opened Triggers
  import opened Render
  import opened Pipeline

  function OnPush(branches: seq<string>): Trigger
  {
    Trigger(Some(PushTrigger(branches)))
  }

  /** One job `build` on partition `small` with the single step `run: "echo hi"`, triggered by pushes to `main`. */
  function EchoWorkflow(): Workflow
  {
    Workflow(None, OnPush(["main"]), [("build", Job(None, "small", [Step(None, Some("echo hi"), None, None, None)]))])
  }

  /** A listing of one file that parsed to `w`, pushed to branch `b`: `w` runs exactly when `b` is one of its push branches. */
  lemma {:induction false} SingleWorkflow(w: Workflow, p: string, b: string)
    requires '/' !in p && '/' !in b
    ensures Parsed([Some(w)]) == [w]
    ensures AllDefined([w], p + "/heads/" + b)
    ensures Triggered([w], p + "/heads/" + b) == if w.on.push.Some? && b in w.on.push.value.branches then [w] else []
  {
    assert [Some(w)][..0] == [];
    BranchPush(w, p, b);
    assert [w][..0] == [];
  }

  /** Which workflows run for a push to `main` or to `dev` of the echo workflow's repository. */
  lemma {:induction false} EchoTriggered(ref: string, b: string)
    requires ref == "refs/heads/" + b && (b == "main" || b == "dev")
    ensures AllDefined(Parsed([Some(EchoWorkflow())]), ref)
    ensures Triggered(Parsed([Some(EchoWorkflow())]), ref) == if b == "main" then [EchoWorkflow()] else []
  {
    assert ref == "refs" + "/heads/" + b;
    SingleWorkflow(EchoWorkflow(), "refs", b);
  }

  /** The echo listing has map-shaped `jobs` and steps, as `ProcessEvent` requires. */
  lemma EchoWellFormed()
    ensures AllWellFormed([Some(EchoWorkflow())])
  {
  }

  function EchoJob(): Job
  {
    EchoWorkflow().jobs[0].1
  }

  /** A job whose one step is `run: cmd`: its script is the header with partition `runsOn`, then one block whose command runs `bash -c "cmd"`. */
  lemma {:induction false} RunStepScript(ctx: Context, jobName: string, runsOn: string, cmd: string)
    requires ContextAvoids(ctx, '\n') && '\n' !in jobName && '\n' !in runsOn && '\n' !in cmd
    ensures var lines := Split(Script(ctx, "", jobName, Job(None, runsOn, [Step(None, Some(cmd), None, None, None)])), '\n');
      && |lines| == 62
      && lines[3] == "#SBATCH --partition=" + runsOn
      && lines[58..] == ["", "echo \"Running step: \"", Srun(Exports(ctx, None), "bash -c \"" + cmd + "\""), ""]
  {
    var job := Job(None, runsOn, [Step(None, Some(cmd), None, None, None)]);
    ScriptLines(ctx, "", jobName, job);
    RunStepLines(ctx, jobName, cmd);
    assert HeaderLines(ctx, jobName, runsOn, "")[3] == "#SBATCH --partition=" + runsOn;
  }

  /** The lines of that one step: an empty line, the echo line with an empty name, and the command. */
  lemma {:induction false} RunStepLines(ctx: Context, jobName: string, cmd: string)
    ensures StepsLines(ctx, jobName, [Step(None, Some(cmd), None, None, None)]) == ["", "echo \"Running step: \"", RunCommand(ctx, cmd)]
  {
    var step := Step(None, Some(cmd), None, None, None);
    assert [step][..0] == [];
    assert EchoLine(step) == "echo \"Running step: \"";
    assert Command(ctx, jobName, step) == Some(RunCommand(ctx, cmd));
  }

  /** The echo job's script: the header with partition `small`, then one block whose command runs `bash -c "echo hi"`. */
  lemma {:induction false} EchoScript(ctx: Context)
    requires ContextAvoids(ctx, '\n')
    ensures var lines := Split(Script(ctx, "", "build", EchoJob()), '\n');
      && |lines| == 62
      && lines[3] == "#SBATCH --partition=small"
      && lines[58..] == ["", "echo \"Running step: \"", Srun(Exports(ctx, None), "bash -c \"echo hi\""), ""]
  {
    RunStepScript(ctx, "build", "small", "echo hi");
    assert "bash -c \"" + "echo hi" + "\"" == "bash -c \"echo hi\"";
  }

  lemma {:induction false} EchoPlan()
    ensures Plan([EchoWorkflow()]) == [PlannedJob("", "build", EchoJob())]
  {
    var w := EchoWorkflow();
    assert [w][..0] == [];
    assert ActionRefs(w.jobs) == [] by {
      assert w.jobs[1..] == [];
      assert EchoJob().steps[1..] == [];
    }
  }

  /** A push to `main`: exactly one script is submitted, for job `build`, on partition `small`, whose one step block runs `bash -c "echo hi"`; a 200 reply with a readable body is a success. */
  method RunPushToMain(ctx: Context, respond: nat -> Response, body: string) returns (log: seq<Submission>)
    requires ctx.ref == "refs/heads/" + "main" && ContextAvoids(ctx, '\n')
    requires respond(0) == Responded(200, Some(body))
    ensures |log| == 1
    ensures log[0].jobName == "build" && log[0].outcome == Submitted(200, body)
    ensures var lines := Split(log[0].request.script, '\n');
      && |lines| == 62
      && lines[3] == "#SBATCH --partition=small"
      && lines[58..] == ["", "echo \"Running step: \"", Srun(Exports(ctx, None), "bash -c \"echo hi\""), ""]
  {
    EchoTriggered(ctx.ref, "main");
    EchoWellFormed();
    log := ProcessEvent(ctx, Some([Some(EchoWorkflow())]), respond);
    EchoPlan();
    EchoScript(ctx);
  }

  /** A push to `dev`: nothing is submitted and the event ends normally. */
  method RunPushToDev(ctx: Context, respond: nat -> Response) returns (log: seq<Submission>)
    requires ctx.ref == "refs/heads/" + "dev"
    ensures log == []
  {
    EchoTriggered(ctx.ref, "dev");
    EchoWellFormed();
    log := ProcessEvent(ctx, Some([Some(EchoWorkflow())]), respond);
  }

  /** A `with` key spelled `TOKEN` is exported as a second `INPUT_TOKEN=` assignment, after the fixed one that carries the configured token. */
  lemma {:induction false} UpperTokenInput(ctx: Context, x: string)
    requires ExportSafe(ctx) && ',' !in x
    ensures var pieces := Split(Exports(ctx, Some([("TOKEN", x)])), ',');
      && |pieces| == 8
      && pieces[4] == "INPUT_TOKEN=" + ctx.token
      && pieces[7] == "INPUT_TOKEN=" + x
  {
    assert InputsAvoid([("TOKEN", x)], ',');
    ExportsLayout(ctx, Some([("TOKEN", x)]));
    assert InputEntries([("TOKEN", x)]) == ["INPUT_" + "TOKEN" + "=" + x];
  }

  /** The step `uses: "org/tool@v1"` with `with: {token: abc}`. */
  function ToolStep(): Step
  {
    Step(None, None, Some("org/tool@v1"), Some([("token", "abc")]), None)
  }

  function ToolWorkflow(runsOn: string): Workflow
  {
    Workflow(None, OnPush(["main"]), [("build", Job(None, runsOn, [ToolStep()]))])
  }

  /** A job whose one step is `uses: repo@version` stages `"repo"` only: the version is not part of the action list. */
  lemma {:induction false} ActionStepStaged(repo: string, version: string, step: Step, jobs: seq<(string, Job)>)
    requires '@' !in repo && step.uses == Some(repo + "@" + version)
    requires |jobs| == 1 && jobs[0].1.steps == [step]
    ensures ActionRefs(jobs) == [Quote(repo)]
  {
    ActionRepoDropsVersion(repo, version);
    assert StepActions([step][1..]) == [];
    assert StepActions(jobs[0].1.steps) == [Quote(repo)];
    assert ActionRefs(jobs[1..]) == [];
  }

  /** The tool workflow's action list is `"org/tool"`. */
  lemma {:induction false} ToolActions(runsOn: string)
    ensures ActionRefs(ToolWorkflow(runsOn).jobs) == [Quote("org/tool")]
    ensures ActionList(ToolWorkflow(runsOn)) == Quote("org/tool")
  {
    assert "org/tool@v1" == "org/tool" + "@" + "v1";
    ActionStepStaged("org/tool", "v1", ToolStep(), ToolWorkflow(runsOn).jobs);
  }

  /** Its exports end in `INPUT_token=abc`: the key keeps its case, and `INPUT_TOKEN` carries the configured token instead. */
  lemma {:induction false} ToolExports(ctx: Context)
    requires ExportSafe(ctx)
    ensures Split(Exports(ctx, ToolStep().with), ',') == BaseExports(ctx) + ["INPUT_token=abc"]
    ensures BaseExports(ctx)[4] == "INPUT_TOKEN=" + ctx.token
  {
    ExportsLayout(ctx, ToolStep().with);
    assert "INPUT_" + "token" + "=" + "abc" == "INPUT_token=abc";
    assert InputEntries([("token", "abc")]) == ["INPUT_token=abc"];
  }

  /** Node runs the entry point of the staged `org/tool` clone, not of `org/tool@v1`. */
  lemma {:induction false} ToolCommand(ctx: Context)
    ensures Command(ctx, "build", ToolStep()) ==
      Some(Srun(Exports(ctx, ToolStep().with), "/usr/bin/node " + (CacheDir(ctx, "build") + "/" + "org/tool" + "/dist/index.js")))
  {
    assert "org/tool@v1" == "org/tool" + "@" + "v1";
    ActionRepoDropsVersion("org/tool", "v1");
  }

  /** A workflow with the jobs `build` and `test`, in that map order: two planned jobs, in that order. */
  lemma {:induction false} TwoJobPlan(w: Workflow)
    requires |w.jobs| == 2
    ensures |Plan([w])| == 2
    ensures Plan([w])[0].jobName == w.jobs[0].0 && Plan([w])[1].jobName == w.jobs[1].0
  {
    assert [w][..0] == [];
    assert Plan([w]) == JobsPlan(ActionList(w), w.jobs);
  }

  /** A workflow with the jobs `build` and `test` is map-shaped when the jobs' steps are. */
  lemma TwoJobsWellFormed(w: Workflow, jobA: Job, jobB: Job)
    requires w.jobs == [("build", jobA), ("test", jobB)]
    requires StepsWellFormed(jobA.steps) && StepsWellFormed(jobB.steps)
    ensures AllWellFormed([Some(w)])
  {
    assert KeysDistinct(w.jobs);
  }

  /** Two jobs of one workflow, the scheduler rejecting the first with 500 and accepting the second: both are submitted, in order, with their own outcomes. */
  method RunRejectedThenAccepted(ctx: Context, jobA: Job, jobB: Job, respond: nat -> Response, body: string, msg: Option<string>)
    returns (log: seq<Submission>)
    requires ctx.ref == "refs/heads/" + "main"
    requires StepsWellFormed(jobA.steps) && StepsWellFormed(jobB.steps)
    requires respond(0) == Responded(500, msg) && respond(1) == Responded(200, Some(body))
    ensures |log| == 2
    ensures log[0].jobName == "build" && log[0].outcome == Rejected(500)
    ensures log[1].jobName == "test" && log[1].outcome == Submitted(200, body)
  {
    var w := Workflow(None, OnPush(["main"]), [("build", jobA), ("test", jobB)]);
    assert ctx.ref == "refs" + "/heads/" + "main";
    SingleWorkflow(w, "refs", "main");
    TwoJobsWellFormed(w, jobA, jobB);
    log := ProcessEvent(ctx, Some([Some(w)]), respond);
    TwoJobPlan(w);
  }
}
