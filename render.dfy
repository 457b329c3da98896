/**
 * Lowering one job of a triggered workflow into a Slurm batch script
 * (rabbitmq-worker main.rs, the bodies of the per-workflow and per-job loops).
 *
 * The script is the fixed header (scheduler directives, work and cache
 * directories, the cleanup trap, the action staging block) followed by one
 * block per step. All interpolated values are inserted as they are, with no
 * quoting or escaping.
 */
module Render {
  import opened Strings
  import opened Workflows

  /** The values the renderer reads: the event's `repository.name`, `repository.full_name` and `ref`, and the configured GitHub token. */
  datatype Context = Context(repoName: string, repoFullName: string, ref: string, token: string)

  // ---------------------------------------------------------------------------
  // Action references (the `flat_map` / `filter_map` / `join(" ")` chain)

  /** The repository part of a `uses` reference: the text before the first '@' (the version is dropped). */
  function ActionRepo(uses: string): string
  {
    FirstPiece(uses, '@')
  }

  function Quote(s: string): string
  {
    "\"" + s + "\""
  }

  /** The quoted action repositories of one job's `uses` steps, in step order. */
  function StepActions(steps: seq<Step>): seq<string>
    decreases |steps|
  {
    if steps == [] then []
    else
      (if steps[0].uses.Some? then [Quote(ActionRepo(steps[0].uses.value))] else [])
      + StepActions(steps[1..])
  }

  /** The quoted action repositories of every job, jobs in map order; nothing is deduplicated. */
  function ActionRefs(jobs: seq<(string, Job)>): seq<string>
    decreases |jobs|
  {
    if jobs == [] then [] else StepActions(jobs[0].1.steps) + ActionRefs(jobs[1..])
  }

  /** The space-separated list a workflow's scripts put in `REPOS=( … )`, computed once per workflow. */
  function ActionList(w: Workflow): string
  {
    Join(ActionRefs(w.jobs), ' ')
  }

  /** The number of steps that have a `uses` reference. */
  function UsesCount(steps: seq<Step>): nat
  {
    multiset(seq(|steps|, k requires 0 <= k < |steps| => steps[k].uses.Some?))[true]
  }

  // ---------------------------------------------------------------------------
  // The header

  /** The per-job action cache directory; it is namespaced by repository and job name only. */
  function CacheDir(ctx: Context, jobName: string): string
  {
    "/tmp/" + ctx.repoName + "_" + jobName + "/actions_cache"
  }

  /** The scheduler directives at the top of the header template, keyed by repository and job name, then `set -e`. */
  function DirectiveLines(ctx: Context, jobName: string, runsOn: string): seq<string>
  {
    [ "#!/bin/bash",
      "#SBATCH --job-name=" + jobName,
      "#SBATCH --ntasks=1",
      "#SBATCH --partition=" + runsOn,
      "#SBATCH --nodes=1",
      "#SBATCH --output=" + ctx.repoName + "_" + jobName + "_%j.log",
      "#SBATCH --error=" + ctx.repoName + "_" + jobName + "_%j.err",
      "",
      "set -e",
      "" ]
  }

  /** One level of indentation in the template. */
  const Tab: string := "    "

  /** The template's idiom for "create the directory named by `dir` unless it exists". */
  function EnsureDir(dir: string): string
  {
    "srun [ -d " + dir + " ] || mkdir -p " + dir
  }

  /** The banner rule printed by the cleanup handler. */
  const Rule: string := "=========================================="

  /** The directory exports: the work directory, the action list, the action cache directory. */
  function DirectoryLines(ctx: Context, jobName: string, actions: string): seq<string>
  {
    [ "export WORK_DIR=\"/tmp/" + ctx.repoName + "_" + jobName + "_${SLURM_JOB_ID}\"",
      "export REPOS=(" + actions + ")",
      "export ACTIONS_CACHE_DIR=" + CacheDir(ctx, jobName),
      "export NUM_TASKS=${#REPOS[@]}",
      "export REPOS_STR=\"${REPOS[*]}\"",
      "",
      EnsureDir("$WORK_DIR"),
      "" ]
  }

  /** The cleanup handler, which removes both directories and keeps the exit code, and its registration. */
  const CleanupLines: seq<string> :=
    [ "cleanup() {",
      Tab + "local exit_code=$?",
      Tab + "echo \"\"",
      Tab + "echo \"Cleanup\"",
      Tab + "cd /",
      Tab + "rm -rf $WORK_DIR",
      Tab + "rm -rf $ACTIONS_CACHE_DIR",
      "",
      Tab + "echo \"\"",
      Tab + "echo \"" + Rule + "\"",
      Tab + "echo \"Workflow completed at: $(date)\"",
      Tab + "echo \"" + Rule + "\"",
      Tab + "exit $exit_code",
      "}",
      "",
      "trap cleanup EXIT",
      "" ]

  /** The action staging block, which clones every listed action into the cache directory. The template ends in two newlines, hence the two empty lines. */
  const StagingLines: seq<string> :=
    [ "echo \"Setting up third party actions\"",
      "",
      EnsureDir("$ACTIONS_CACHE_DIR"),
      "",
      "# Setup third party actions",
      "srun --ntasks=1  bash -c '",
      Tab + "cd \"$ACTIONS_CACHE_DIR\"",
      Tab + "IFS=\" \" read -r -a REPOS <<< \"$REPOS_STR\"",
      "",
      Tab + "for i in \"${REPOS[@]}\"; do",
      Tab + Tab + "echo \"Setting up third party action: $i\"",
      "",
      Tab + Tab + "[ -d $i ] || mkdir -p $i",
      Tab + Tab + "pushd $i",
      "",
      Tab + Tab + "git clone \"https://github.com/$i\" .",
      "",
      Tab + Tab + "echo \"Setup third party action: $i\"",
      "",
      Tab + Tab + "popd",
      Tab + "done",
      "'",
      "",
      "" ]

  /** The lines of the header template, with `{{`/`}}` already read as `{`/`}`. */
  function HeaderLines(ctx: Context, jobName: string, runsOn: string, actions: string): seq<string>
  {
    DirectiveLines(ctx, jobName, runsOn) + DirectoryLines(ctx, jobName, actions) + CleanupLines + StagingLines
  }

  function Header(ctx: Context, jobName: string, runsOn: string, actions: string): string
  {
    Join(HeaderLines(ctx, jobName, runsOn, actions), '\n')
  }

  // ---------------------------------------------------------------------------
  // Step blocks

  /** `step.name.unwrap_or("")`. */
  function StepName(step: Step): string
  {
    match step.name
    case Some(n) => n
    case None => ""
  }

  function EchoLine(step: Step): string
  {
    "echo \"Running step: " + StepName(step) + "\""
  }

  /** `with` rendered as `INPUT_{key}={value}`, in map order; keys keep their case. */
  function InputEntries(with: seq<(string, string)>): (r: seq<string>)
    ensures |r| == |with|
    ensures forall i :: 0 <= i < |with| ==> r[i] == "INPUT_" + with[i].0 + "=" + with[i].1
  {
    seq(|with|, i requires 0 <= i < |with| => "INPUT_" + with[i].0 + "=" + with[i].1)
  }

  /** An `INPUT_` entry reads back: when the key has no '=', the variable name (up to the first '=') is the key and the rest is the value. */
  lemma InputEntryReadBack(key: string, value: string)
    requires '=' !in key
    ensures var e := "INPUT_" + key + "=" + value;
      && e[..6] == "INPUT_"
      && FirstPiece(e[6..], '=') == key
      && e[6 + |key| + 1..] == value
  {
    var e := "INPUT_" + key + "=" + value;
    assert e[6..] == key + ['='] + value;
    SplitCons(key, '=', value);
  }

  /** Distinct `with` keys without '=' export distinct variables: no input entry shadows another. */
  lemma InputEntriesDistinct(with: seq<(string, string)>)
    requires KeysDistinct(with)
    requires forall i :: 0 <= i < |with| ==> '=' !in with[i].0
    ensures var r := InputEntries(with);
      forall a, b :: 0 <= a < b < |r| ==> |r[a]| >= 6 && |r[b]| >= 6 && FirstPiece(r[a][6..], '=') != FirstPiece(r[b][6..], '=')
  {
    var r := InputEntries(with);
    forall a, b | 0 <= a < b < |r|
      ensures |r[a]| >= 6 && |r[b]| >= 6 && FirstPiece(r[a][6..], '=') != FirstPiece(r[b][6..], '=')
    {
      InputEntryReadBack(with[a].0, with[a].1);
      InputEntryReadBack(with[b].0, with[b].1);
    }
  }

  /** The restricted search path given to every step and to the submitted job. */
  const SafePath: string := Join(["/usr/local/sbin", "/usr/local/bin", "/usr/sbin", "/usr/bin", "/sbin", "/bin", "/snap/bin"], ':')

  /** The fixed `--export` assignments every step command starts with. The token is exported under two names. */
  function BaseExports(ctx: Context): seq<string>
  {
    [ "GITHUB_WORKSPACE=$WORK_DIR",
      "GITHUB_REPOSITORY=" + ctx.repoFullName,
      "GITHUB_REF=" + ctx.ref,
      "GITHUB_TOKEN=" + ctx.token,
      "INPUT_TOKEN=" + ctx.token,
      "PATH=\"" + SafePath + "\"",
      "RUNNER_TEMP=/tmp" ]
  }

  /** The `--export=` value: the fixed assignments, then `,` and the joined inputs when `with` is present. */
  function Exports(ctx: Context, with: Option<seq<(string, string)>>): string
  {
    Join(BaseExports(ctx), ',') +
      match with
      case None => ""
      case Some(m) => "," + Join(InputEntries(m), ',')
  }

  /** Where a staged action's entry point lies. */
  function EntryPoint(ctx: Context, jobName: string, repo: string): string
  {
    CacheDir(ctx, jobName) + "/" + repo + "/dist/index.js"
  }

  /** A step command line: `program` run in the work directory with exactly the `exports` environment. */
  function Srun(exports: string, program: string): string
  {
    "srun --chdir=$WORK_DIR --export=" + exports + "  " + program
  }

  /** The `srun` line of a `uses` step: node runs the staged action's entry point. */
  function UsesCommand(ctx: Context, jobName: string, repo: string, with: Option<seq<(string, string)>>): string
  {
    Srun(Exports(ctx, with), "/usr/bin/node " + EntryPoint(ctx, jobName, repo))
  }

  /** The `srun` line of a `run` step: the command text verbatim inside `bash -c "…"`. */
  function RunCommand(ctx: Context, run: string): string
  {
    Srun(Exports(ctx, None), "bash -c \"" + run + "\"")
  }

  /** The one `srun` line a step contributes: `uses` wins over `run`; a step with neither has none. */
  function Command(ctx: Context, jobName: string, step: Step): Option<string>
  {
    if step.uses.Some? then Some(UsesCommand(ctx, jobName, ActionRepo(step.uses.value), step.with))
    else if step.run.Some? then Some(RunCommand(ctx, step.run.value))
    else None
  }

  /** The text appended to the script for one step. */
  function StepBlock(ctx: Context, jobName: string, step: Step): string
  {
    var command := Command(ctx, jobName, step);
    "\n" + EchoLine(step) + "\n" + (if command.Some? then command.value + "\n" else "")
  }

  function StepBlocks(ctx: Context, jobName: string, steps: seq<Step>): string
    decreases |steps|
  {
    if steps == [] then "" else StepBlocks(ctx, jobName, steps[..|steps| - 1]) + StepBlock(ctx, jobName, steps[|steps| - 1])
  }

  /** The script for job `jobName`: the header, then one block per step in step order. */
  function Script(ctx: Context, actions: string, jobName: string, job: Job): string
  {
    Header(ctx, jobName, job.runsOn, actions) + StepBlocks(ctx, jobName, job.steps)
  }

  /** Builds one step's text the way the source does: the echo line, then at most one command. */
  method RenderStep(ctx: Context, jobName: string, step: Step) returns (stepCommand: string)
    ensures stepCommand == StepBlock(ctx, jobName, step)
  {
    stepCommand := "\n" + EchoLine(step) + "\n";
    if step.uses.Some? {
      var repo := ActionRepo(step.uses.value);
      stepCommand := stepCommand + UsesCommand(ctx, jobName, repo, step.with) + "\n";
    } else if step.run.Some? {
      stepCommand := stepCommand + RunCommand(ctx, step.run.value) + "\n";
    }
  }

  /** Builds the script the way the source does, growing it one step at a time. */
  method RenderJob(ctx: Context, actions: string, jobName: string, job: Job) returns (script: string)
    ensures script == Script(ctx, actions, jobName, job)
  {
    var header := Header(ctx, jobName, job.runsOn, actions);
    script := header;
    for i := 0 to |job.steps|
      invariant script == header + StepBlocks(ctx, jobName, job.steps[..i])
    {
      var step := job.steps[i];
      var stepCommand := RenderStep(ctx, jobName, step);
      assert job.steps[..i + 1][..i] == job.steps[..i];
      AppendAssoc(header, StepBlocks(ctx, jobName, job.steps[..i]), stepCommand);
      script := script + stepCommand;
    }
    assert job.steps[..|job.steps|] == job.steps;
  }

  /** Associativity over strings the prover does not unfold, so that the loop step does not compare the long header literal element by element. */
  lemma AppendAssoc(a: string, b: string, c: string)
    ensures a + b + c == a + (b + c)
  {
  }

  // ---------------------------------------------------------------------------
  // What the action list holds

  /** Step `k` of job `j` has a `uses` reference whose quoted repository is `x`. */
  predicate UsedAt(jobs: seq<(string, Job)>, j: int, k: int, x: string)
  {
    && 0 <= j < |jobs| && 0 <= k < |jobs[j].1.steps|
    && jobs[j].1.steps[k].uses.Some?
    && x == Quote(ActionRepo(jobs[j].1.steps[k].uses.value))
  }

  lemma {:induction false} StepActionsMember(steps: seq<Step>, x: string)
    ensures x in StepActions(steps) <==>
      exists k :: 0 <= k < |steps| && steps[k].uses.Some? && x == Quote(ActionRepo(steps[k].uses.value))
    decreases |steps|
  {
    if steps != [] {
      StepActionsMember(steps[1..], x);
      if x in StepActions(steps[1..]) {
        var k :| 0 <= k < |steps[1..]| && steps[1..][k].uses.Some? && x == Quote(ActionRepo(steps[1..][k].uses.value));
        assert steps[k + 1] == steps[1..][k];
      }
      forall k | 0 < k < |steps| && steps[k].uses.Some? && x == Quote(ActionRepo(steps[k].uses.value))
        ensures x in StepActions(steps[1..])
      {
        assert steps[1..][k - 1] == steps[k];
      }
    }
  }

  /** Every entry of the action list comes from a `uses` step of some job, and every `uses` step of every job contributes its entry. */
  lemma {:induction false} ActionRefsMember(jobs: seq<(string, Job)>, x: string)
    ensures x in ActionRefs(jobs) <==> exists j, k :: UsedAt(jobs, j, k, x)
    decreases |jobs|
  {
    if jobs != [] {
      ActionRefsMember(jobs[1..], x);
      StepActionsMember(jobs[0].1.steps, x);
      if x in StepActions(jobs[0].1.steps) {
        var k :| 0 <= k < |jobs[0].1.steps| && jobs[0].1.steps[k].uses.Some? && x == Quote(ActionRepo(jobs[0].1.steps[k].uses.value));
        assert UsedAt(jobs, 0, k, x);
      }
      if x in ActionRefs(jobs[1..]) {
        var j, k :| UsedAt(jobs[1..], j, k, x);
        assert UsedAt(jobs, j + 1, k, x);
      }
      if exists j, k :: UsedAt(jobs, j, k, x) {
        var j, k :| UsedAt(jobs, j, k, x);
        if j > 0 {
          assert UsedAt(jobs[1..], j - 1, k, x);
        }
      }
    }
  }

  /** The list for several jobs is the lists of the jobs one after another: order is kept and nothing is merged. */
  lemma {:induction false} ActionRefsAppend(a: seq<(string, Job)>, b: seq<(string, Job)>)
    ensures ActionRefs(a + b) == ActionRefs(a) + ActionRefs(b)
    decreases |a|
  {
    if a == [] {
      assert a + b == b;
    } else {
      assert (a + b)[1..] == a[1..] + b;
      ActionRefsAppend(a[1..], b);
    }
  }

  /** One entry per `uses` step of a job. */
  lemma {:induction false} StepActionsCount(steps: seq<Step>)
    ensures |StepActions(steps)| == UsesCount(steps)
    decreases |steps|
  {
    var flags := seq(|steps|, k requires 0 <= k < |steps| => steps[k].uses.Some?);
    if steps == [] {
      assert flags == [];
    } else {
      StepActionsCount(steps[1..]);
      var rest := seq(|steps[1..]|, k requires 0 <= k < |steps[1..]| => steps[1..][k].uses.Some?);
      assert flags == [steps[0].uses.Some?] + rest;
      assert multiset(flags) == multiset([steps[0].uses.Some?]) + multiset(rest);
    }
  }

  /** One `uses` reference and another with the same repository but a different version give two equal entries. */
  lemma DuplicatesKept(name: Option<string>, a: string, v1: string, v2: string)
    requires '@' !in a
    ensures var steps := [Step(name, None, Some(a + "@" + v1), None, None), Step(name, None, Some(a + "@" + v2), None, None)];
            StepActions(steps) == [Quote(a), Quote(a)]
  {
    var s1 := Step(name, None, Some(a + "@" + v1), None, None);
    var s2 := Step(name, None, Some(a + "@" + v2), None, None);
    ActionRepoDropsVersion(a, v1);
    ActionRepoDropsVersion(a, v2);
    assert [s1, s2][1..] == [s2];
    assert [s2][1..] == [];
    assert StepActions([s2]) == [Quote(a)];
  }

  /** The version after '@' is dropped; a reference without '@' is kept whole. */
  lemma ActionRepoDropsVersion(a: string, v: string)
    requires '@' !in a
    ensures ActionRepo(a + "@" + v) == a
    ensures ActionRepo(a) == a
  {
    SplitCons(a, '@', v);
    SplitSepFree(a, '@');
  }

  /** No `uses` reference of any job contains `c`. */
  predicate UsesAvoid(jobs: seq<(string, Job)>, c: char)
  {
    forall j, k :: 0 <= j < |jobs| && 0 <= k < |jobs[j].1.steps| && jobs[j].1.steps[k].uses.Some? ==>
      c !in jobs[j].1.steps[k].uses.value
  }

  lemma RefsAvoid(jobs: seq<(string, Job)>, c: char)
    requires c != '"' && UsesAvoid(jobs, c)
    ensures SepFree(ActionRefs(jobs), c)
  {
    var refs := ActionRefs(jobs);
    forall i | 0 <= i < |refs| ensures c !in refs[i] {
      ActionRefsMember(jobs, refs[i]);
      var j, k :| UsedAt(jobs, j, k, refs[i]);
      FirstPieceAvoids(jobs[j].1.steps[k].uses.value, '@', c);
    }
  }

  /** When no reference contains a space, splitting the joined list at spaces gives back exactly the quoted entries, quote characters included, in order and with duplicates. */
  lemma ActionListSplits(w: Workflow)
    requires ActionRefs(w.jobs) != []
    requires UsesAvoid(w.jobs, ' ')
    ensures Split(ActionList(w), ' ') == ActionRefs(w.jobs)
  {
    RefsAvoid(w.jobs, ' ');
    SplitJoin(ActionRefs(w.jobs), ' ');
  }

  // ---------------------------------------------------------------------------
  // Layout of the header and of the export list

  /** The header's lines, when no interpolated value contains a newline: directives first, then the work and cache directories, the cleanup trap at line 33, and the action staging from line 35 on. */
  lemma HeaderLayout(ctx: Context, jobName: string, runsOn: string, actions: string)
    requires '\n' !in ctx.repoName && '\n' !in jobName && '\n' !in runsOn && '\n' !in actions
    ensures var lines := Split(Header(ctx, jobName, runsOn, actions), '\n');
      && lines == HeaderLines(ctx, jobName, runsOn, actions)
      && |lines| == 59
      && lines[1] == "#SBATCH --job-name=" + jobName
      && lines[3] == "#SBATCH --partition=" + runsOn
      && lines[5] == "#SBATCH --output=" + ctx.repoName + "_" + jobName + "_%j.log"
      && lines[6] == "#SBATCH --error=" + ctx.repoName + "_" + jobName + "_%j.err"
      && lines[11] == "export REPOS=(" + actions + ")"
      && lines[12] == "export ACTIONS_CACHE_DIR=" + CacheDir(ctx, jobName)
      && lines[33] == "trap cleanup EXIT"
      && lines[35] == "echo \"Setting up third party actions\""
      && lines[58] == ""
  {
    var d := DirectiveLines(ctx, jobName, runsOn);
    var e := DirectoryLines(ctx, jobName, actions);
    var lines := HeaderLines(ctx, jobName, runsOn, actions);
    HeaderLinesAvoid(ctx, jobName, runsOn, actions);
    SplitJoin(lines, '\n');
    assert lines[1] == d[1] && lines[3] == d[3] && lines[5] == d[5] && lines[6] == d[6];
    assert lines[11] == e[1] && lines[12] == e[2];
    assert lines[33] == CleanupLines[15] && lines[35] == StagingLines[0] && lines[58] == StagingLines[23];
  }

  lemma HeaderLinesAvoid(ctx: Context, jobName: string, runsOn: string, actions: string)
    requires '\n' !in ctx.repoName && '\n' !in jobName && '\n' !in runsOn && '\n' !in actions
    ensures SepFree(HeaderLines(ctx, jobName, runsOn, actions), '\n')
  {
    var d := DirectiveLines(ctx, jobName, runsOn);
    var e := DirectoryLines(ctx, jobName, actions);
    DirectiveLinesAvoid(ctx, jobName, runsOn);
    DirectoryLinesAvoid(ctx, jobName, actions);
    CleanupLinesAvoid();
    StagingLinesAvoid();
    SepFreeAppend(d, e, '\n');
    SepFreeAppend(d + e, CleanupLines, '\n');
    SepFreeAppend(d + e + CleanupLines, StagingLines, '\n');
  }

  lemma SepFreeAppend(a: seq<string>, b: seq<string>, c: char)
    requires SepFree(a, c) && SepFree(b, c)
    ensures SepFree(a + b, c)
  {
    forall i | 0 <= i < |a + b| ensures c !in (a + b)[i] {
      if i >= |a| {
        assert (a + b)[i] == b[i - |a|];
      }
    }
  }

  lemma DirectiveLinesAvoid(ctx: Context, jobName: string, runsOn: string)
    requires '\n' !in ctx.repoName && '\n' !in jobName && '\n' !in runsOn
    ensures SepFree(DirectiveLines(ctx, jobName, runsOn), '\n')
  {
  }

  /** The directory section, checked a few lines at a time. */
  lemma DirectoryLinesAvoid(ctx: Context, jobName: string, actions: string)
    requires '\n' !in ctx.repoName && '\n' !in jobName && '\n' !in actions
    ensures SepFree(DirectoryLines(ctx, jobName, actions), '\n')
  {
    DirectoryLinesAvoid0(ctx, jobName, actions);
    DirectoryLinesAvoid1(ctx, jobName, actions);
    DirectoryLinesAvoid2(ctx, jobName, actions);
    DirectoryLinesAvoid3To5(ctx, jobName, actions);
    DirectoryLinesAvoid6To7(ctx, jobName, actions);
  }

  lemma DirectoryLinesAvoid0(ctx: Context, jobName: string, actions: string)
    requires '\n' !in ctx.repoName && '\n' !in jobName && '\n' !in actions
    ensures '\n' !in DirectoryLines(ctx, jobName, actions)[0]
  {
  }

  lemma DirectoryLinesAvoid1(ctx: Context, jobName: string, actions: string)
    requires '\n' !in ctx.repoName && '\n' !in jobName && '\n' !in actions
    ensures '\n' !in DirectoryLines(ctx, jobName, actions)[1]
  {
  }

  lemma DirectoryLinesAvoid2(ctx: Context, jobName: string, actions: string)
    requires '\n' !in ctx.repoName && '\n' !in jobName && '\n' !in actions
    ensures '\n' !in DirectoryLines(ctx, jobName, actions)[2]
  {
  }

  lemma DirectoryLinesAvoid3To5(ctx: Context, jobName: string, actions: string)
    ensures '\n' !in DirectoryLines(ctx, jobName, actions)[3]
    ensures '\n' !in DirectoryLines(ctx, jobName, actions)[4]
    ensures '\n' !in DirectoryLines(ctx, jobName, actions)[5]
  {
  }

  lemma DirectoryLinesAvoid6To7(ctx: Context, jobName: string, actions: string)
    ensures '\n' !in DirectoryLines(ctx, jobName, actions)[6]
    ensures '\n' !in DirectoryLines(ctx, jobName, actions)[7]
  {
  }

  /** The cleanup handler, checked a few lines at a time. */
  lemma CleanupLinesAvoid()
    ensures SepFree(CleanupLines, '\n')
  {
    CleanupLinesAvoid0To2();
    CleanupLinesAvoid3To5();
    CleanupLinesAvoid6To8();
    CleanupLinesAvoid9();
    CleanupLinesAvoid10();
    CleanupLinesAvoid11();
    CleanupLinesAvoid12To16();
  }

  lemma CleanupLinesAvoid0To2()
    ensures '\n' !in CleanupLines[0]
    ensures '\n' !in CleanupLines[1]
    ensures '\n' !in CleanupLines[2]
  {
  }

  lemma CleanupLinesAvoid3To5()
    ensures '\n' !in CleanupLines[3]
    ensures '\n' !in CleanupLines[4]
    ensures '\n' !in CleanupLines[5]
  {
  }

  lemma CleanupLinesAvoid6To8()
    ensures '\n' !in CleanupLines[6]
    ensures '\n' !in CleanupLines[7]
    ensures '\n' !in CleanupLines[8]
  {
  }

  lemma CleanupLinesAvoid9()
    ensures '\n' !in CleanupLines[9]
  {
  }

  lemma CleanupLinesAvoid10()
    ensures '\n' !in CleanupLines[10]
  {
  }

  lemma CleanupLinesAvoid11()
    ensures '\n' !in CleanupLines[11]
  {
  }

  lemma CleanupLinesAvoid12To16()
    ensures '\n' !in CleanupLines[12]
    ensures '\n' !in CleanupLines[13]
    ensures '\n' !in CleanupLines[14]
    ensures '\n' !in CleanupLines[15]
    ensures '\n' !in CleanupLines[16]
  {
  }

  /** The staging section, checked a few lines at a time. */
  lemma StagingLinesAvoid()
    ensures SepFree(StagingLines, '\n')
  {
    StagingLinesAvoid0To1();
    StagingLinesAvoid2();
    StagingLinesAvoid3To4();
    StagingLinesAvoid5();
    StagingLinesAvoid6();
    StagingLinesAvoid7();
    StagingLinesAvoid8To9();
    StagingLinesAvoid10();
    StagingLinesAvoid11To14();
    StagingLinesAvoid15To16();
    StagingLinesAvoid17To18();
    StagingLinesAvoid19To23();
  }

  lemma StagingLinesAvoid0To1()
    ensures '\n' !in StagingLines[0]
    ensures '\n' !in StagingLines[1]
  {
  }

  lemma StagingLinesAvoid2()
    ensures '\n' !in StagingLines[2]
  {
  }

  lemma StagingLinesAvoid3To4()
    ensures '\n' !in StagingLines[3]
    ensures '\n' !in StagingLines[4]
  {
  }

  lemma StagingLinesAvoid5()
    ensures '\n' !in StagingLines[5]
  {
  }

  lemma StagingLinesAvoid6()
    ensures '\n' !in StagingLines[6]
  {
  }

  lemma StagingLinesAvoid7()
    ensures '\n' !in StagingLines[7]
  {
  }

  lemma StagingLinesAvoid8To9()
    ensures '\n' !in StagingLines[8]
    ensures '\n' !in StagingLines[9]
  {
  }

  lemma StagingLinesAvoid10()
    ensures '\n' !in StagingLines[10]
  {
  }

  lemma StagingLinesAvoid11To14()
    ensures '\n' !in StagingLines[11]
    ensures '\n' !in StagingLines[12]
    ensures '\n' !in StagingLines[13]
    ensures '\n' !in StagingLines[14]
  {
  }

  lemma StagingLinesAvoid15To16()
    ensures '\n' !in StagingLines[15]
    ensures '\n' !in StagingLines[16]
  {
  }

  lemma StagingLinesAvoid17To18()
    ensures '\n' !in StagingLines[17]
    ensures '\n' !in StagingLines[18]
  {
  }

  lemma StagingLinesAvoid19To23()
    ensures '\n' !in StagingLines[19]
    ensures '\n' !in StagingLines[20]
    ensures '\n' !in StagingLines[21]
    ensures '\n' !in StagingLines[22]
    ensures '\n' !in StagingLines[23]
  {
  }

  /** The search path holds no comma, newline or quote, so it stays one assignment and one line. */
  lemma SafePathAvoids(c: char)
    requires c == ',' || c == '\n' || c == '"'
    ensures c !in SafePath
  {
    JoinAvoids(["/usr/local/sbin", "/usr/local/bin", "/usr/sbin", "/usr/bin", "/sbin", "/bin", "/snap/bin"], ':', c);
  }

  /** The fixed assignments with no comma inside them. */
  predicate ExportSafe(ctx: Context)
  {
    ',' !in ctx.repoFullName && ',' !in ctx.ref && ',' !in ctx.token
  }

  predicate InputsAvoid(with: seq<(string, string)>, c: char)
  {
    forall i :: 0 <= i < |with| ==> c !in with[i].0 && c !in with[i].1
  }

  lemma BaseExportsAvoid(ctx: Context)
    requires ExportSafe(ctx)
    ensures SepFree(BaseExports(ctx), ',')
  {
    SafePathAvoids(',');
  }

  /** Read back at the commas, `--export=` lists the fixed assignments ending in `RUNNER_TEMP=/tmp`, then one `INPUT_{key}={value}` per input. A present but empty `with` leaves a trailing comma, an empty last assignment. */
  lemma ExportsLayout(ctx: Context, with: Option<seq<(string, string)>>)
    requires ExportSafe(ctx)
    requires with.Some? ==> InputsAvoid(with.value, ',')
    ensures BaseExports(ctx)[6] == "RUNNER_TEMP=/tmp"
    ensures Split(Exports(ctx, with), ',') ==
      BaseExports(ctx) + match with
        case None => []
        case Some(m) => if m == [] then [""] else InputEntries(m)
  {
    var base := BaseExports(ctx);
    BaseExportsAvoid(ctx);
    match with
    case None =>
      assert Exports(ctx, with) == Join(base, ',');
      SplitJoin(base, ',');
      assert base + [] == base;
    case Some(m) =>
      var inputs := if m == [] then [""] else InputEntries(m);
      assert Join(inputs, ',') == Join(InputEntries(m), ',');
      assert Exports(ctx, with) == Join(base, ',') + [','] + Join(inputs, ',');
      forall i | 0 <= i < |inputs| ensures ',' !in inputs[i] {
        if m != [] {
          assert inputs[i] == "INPUT_" + m[i].0 + "=" + m[i].1;
        }
      }
      SepFreeAppend(base, inputs, ',');
      JoinAppend(base, inputs, ',');
      SplitJoin(base + inputs, ',');
  }

  // ---------------------------------------------------------------------------
  // What a step's block depends on

  /** `uses` takes precedence over `run`; a step with neither keeps only its echo line (the job is not aborted); `with` matters only beside `uses`. */
  lemma StepPrecedence(ctx: Context, jobName: string, step: Step, run: Option<string>, with: Option<seq<(string, string)>>)
    ensures Command(ctx, jobName, step).None? <==> step.uses.None? && step.run.None?
    ensures step.uses.Some? ==> Command(ctx, jobName, step.(run := run)) == Command(ctx, jobName, step)
    ensures step.uses.None? ==> Command(ctx, jobName, step.(with := with)) == Command(ctx, jobName, step)
    ensures step.uses.None? && step.run.None? ==> StepLines(ctx, jobName, step) == ["", "echo \"Running step: " + StepName(step) + "\""]
  {
  }

  /** A step's `env` map is parsed but never read: it changes nothing in the script. */
  lemma EnvIgnored(ctx: Context, jobName: string, step: Step, env: Option<seq<(string, string)>>)
    ensures StepBlock(ctx, jobName, step.(env := env)) == StepBlock(ctx, jobName, step)
  {
  }

  /** A job's own `name` is parsed but never read: the script depends only on the map key, `runs-on` and the steps. */
  lemma JobNameIgnored(ctx: Context, actions: string, jobName: string, job: Job, n: Option<string>)
    ensures Script(ctx, actions, jobName, job.(name := n)) == Script(ctx, actions, jobName, job)
  {
  }

  /** Every action a step runs was staged for its job: its quoted repository is in the job's `REPOS` list and node is pointed at that repository's clone under the job's `ACTIONS_CACHE_DIR`, whatever version followed the '@'. */
  lemma EntryPointStaged(ctx: Context, w: Workflow, j: int, k: int)
    requires 0 <= j < |w.jobs| && 0 <= k < |w.jobs[j].1.steps|
    requires w.jobs[j].1.steps[k].uses.Some?
    ensures var step := w.jobs[j].1.steps[k];
      var repo := ActionRepo(step.uses.value);
      && Quote(repo) in ActionRefs(w.jobs)
      && (UsesAvoid(w.jobs, ' ') ==> Quote(repo) in Split(ActionList(w), ' '))
      && Command(ctx, w.jobs[j].0, step) ==
           Some(Srun(Exports(ctx, step.with), "/usr/bin/node " + (CacheDir(ctx, w.jobs[j].0) + "/" + repo + "/dist/index.js")))
  {
    var step := w.jobs[j].1.steps[k];
    var repo := ActionRepo(step.uses.value);
    assert UsedAt(w.jobs, j, k, Quote(repo));
    ActionRefsMember(w.jobs, Quote(repo));
    if UsesAvoid(w.jobs, ' ') {
      ActionListSplits(w);
    }
  }

  /** Within one repository, distinct job names get distinct action cache directories. The directory names no workflow, so equally named jobs of two workflows share one. */
  lemma CacheDirInjective(ctx: Context, a: string, b: string)
    ensures CacheDir(ctx, a) == CacheDir(ctx, b) <==> a == b
  {
    if CacheDir(ctx, a) == CacheDir(ctx, b) {
      var n := |"/tmp/" + ctx.repoName + "_"|;
      assert |a| == |b|;
      assert a == CacheDir(ctx, a)[n..n + |a|];
      assert b == CacheDir(ctx, b)[n..n + |b|];
    }
  }

  // ---------------------------------------------------------------------------
  // The script read as lines

  /** The lines a step adds: an empty line, the echo line, and the command line when there is one. */
  function StepLines(ctx: Context, jobName: string, step: Step): seq<string>
  {
    var command := Command(ctx, jobName, step);
    ["", EchoLine(step)] + (if command.Some? then [command.value] else [])
  }

  function StepsLines(ctx: Context, jobName: string, steps: seq<Step>): seq<string>
    decreases |steps|
  {
    if steps == [] then [] else StepsLines(ctx, jobName, steps[..|steps| - 1]) + StepLines(ctx, jobName, steps[|steps| - 1])
  }

  /** A step's block is its lines, each ended by a newline. */
  lemma StepBlockAsLines(ctx: Context, jobName: string, step: Step)
    ensures StepBlock(ctx, jobName, step) == Join(StepLines(ctx, jobName, step) + [""], '\n')
  {
    var command := Command(ctx, jobName, step);
    if command.Some? {
      CommandBlockJoin(EchoLine(step), command.value);
      assert StepLines(ctx, jobName, step) + [""] == ["", EchoLine(step), command.value, ""];
    } else {
      EchoBlockJoin(EchoLine(step));
      assert StepLines(ctx, jobName, step) + [""] == ["", EchoLine(step), ""];
    }
  }

  lemma CommandBlockJoin(echo: string, command: string)
    ensures Join(["", echo, command, ""], '\n') == "\n" + echo + "\n" + (command + "\n")
  {
    var tail := ["", echo, command, ""];
    assert tail[1..][1..][1..] == [""];
    assert Join(tail[1..][1..], '\n') == command + "\n";
    assert Join(tail[1..], '\n') == echo + "\n" + (command + "\n");
  }

  lemma EchoBlockJoin(echo: string)
    ensures Join(["", echo, ""], '\n') == "\n" + echo + "\n" + ""
  {
    var tail := ["", echo, ""];
    assert tail[1..][1..] == [""];
    assert Join(tail[1..], '\n') == echo + "\n";
  }

  /** The blocks of a run of steps are the steps' lines in step order, each ended by a newline. */
  lemma {:induction false} StepBlocksAsLines(ctx: Context, jobName: string, steps: seq<Step>)
    ensures StepBlocks(ctx, jobName, steps) == Join(StepsLines(ctx, jobName, steps) + [""], '\n')
    decreases |steps|
  {
    if steps != [] {
      var init, last := steps[..|steps| - 1], steps[|steps| - 1];
      var before := StepsLines(ctx, jobName, init);
      StepBlocksAsLines(ctx, jobName, init);
      StepBlockAsLines(ctx, jobName, last);
      if before == [] {
        assert StepsLines(ctx, jobName, steps) == StepLines(ctx, jobName, last);
      } else {
        JoinTerminated(before, StepLines(ctx, jobName, last), '\n');
      }
    }
  }

  /** A job's script is its 58 header lines, then each step's lines in step order, joined by newlines and ended by a newline. */
  lemma ScriptAsLines(ctx: Context, actions: string, jobName: string, job: Job)
    ensures Script(ctx, actions, jobName, job) ==
      Join(HeaderLines(ctx, jobName, job.runsOn, actions)[..58] + StepsLines(ctx, jobName, job.steps) + [""], '\n')
  {
    var lines := HeaderLines(ctx, jobName, job.runsOn, actions);
    assert lines == lines[..58] + [""];
    StepBlocksAsLines(ctx, jobName, job.steps);
    JoinTerminated(lines[..58], StepsLines(ctx, jobName, job.steps), '\n');
  }

  /** The text fields of a step the renderer copies into the script avoid `c`. */
  predicate StepAvoids(step: Step, c: char)
  {
    && (step.name.Some? ==> c !in step.name.value)
    && (step.run.Some? ==> c !in step.run.value)
    && (step.uses.Some? ==> c !in step.uses.value)
    && (step.with.Some? ==> InputsAvoid(step.with.value, c))
  }

  predicate ContextAvoids(ctx: Context, c: char)
  {
    c !in ctx.repoName && c !in ctx.repoFullName && c !in ctx.ref && c !in ctx.token
  }

  lemma ExportsAvoid(ctx: Context, with: Option<seq<(string, string)>>)
    requires ContextAvoids(ctx, '\n')
    requires with.Some? ==> InputsAvoid(with.value, '\n')
    ensures '\n' !in Exports(ctx, with)
  {
    SafePathAvoids('\n');
    JoinAvoids(BaseExports(ctx), ',', '\n');
    if with.Some? {
      JoinAvoids(InputEntries(with.value), ',', '\n');
    }
  }

  lemma StepLinesAvoid(ctx: Context, jobName: string, step: Step)
    requires ContextAvoids(ctx, '\n') && '\n' !in jobName && StepAvoids(step, '\n')
    ensures SepFree(StepLines(ctx, jobName, step), '\n')
  {
    CommandAvoids(ctx, jobName, step);
  }

  lemma CommandAvoids(ctx: Context, jobName: string, step: Step)
    requires ContextAvoids(ctx, '\n') && '\n' !in jobName && StepAvoids(step, '\n')
    ensures Command(ctx, jobName, step).Some? ==> '\n' !in Command(ctx, jobName, step).value
  {
    if step.uses.Some? {
      UsesCommandAvoids(ctx, jobName, step.uses.value, step.with);
    } else if step.run.Some? {
      RunCommandAvoids(ctx, step.run.value);
    }
  }

  lemma UsesCommandAvoids(ctx: Context, jobName: string, uses: string, with: Option<seq<(string, string)>>)
    requires ContextAvoids(ctx, '\n') && '\n' !in jobName && '\n' !in uses
    requires with.Some? ==> InputsAvoid(with.value, '\n')
    ensures '\n' !in UsesCommand(ctx, jobName, ActionRepo(uses), with)
  {
    var repo := ActionRepo(uses);
    ExportsAvoid(ctx, with);
    FirstPieceAvoids(uses, '@', '\n');
    EntryPointAvoids(ctx, jobName, repo);
    SrunAvoids(Exports(ctx, with), "/usr/bin/node " + EntryPoint(ctx, jobName, repo));
  }

  lemma EntryPointAvoids(ctx: Context, jobName: string, repo: string)
    requires ContextAvoids(ctx, '\n') && '\n' !in jobName && '\n' !in repo
    ensures '\n' !in EntryPoint(ctx, jobName, repo)
  {
  }

  lemma RunCommandAvoids(ctx: Context, run: string)
    requires ContextAvoids(ctx, '\n') && '\n' !in run
    ensures '\n' !in RunCommand(ctx, run)
  {
    ExportsAvoid(ctx, None);
    SrunAvoids(Exports(ctx, None), "bash -c \"" + run + "\"");
  }

  lemma SrunAvoids(exports: string, program: string)
    requires '\n' !in exports && '\n' !in program
    ensures '\n' !in Srun(exports, program)
  {
  }

  lemma {:induction false} StepsLinesAvoid(ctx: Context, jobName: string, steps: seq<Step>)
    requires ContextAvoids(ctx, '\n') && '\n' !in jobName
    requires forall k :: 0 <= k < |steps| ==> StepAvoids(steps[k], '\n')
    ensures SepFree(StepsLines(ctx, jobName, steps), '\n')
    decreases |steps|
  {
    if steps != [] {
      StepsLinesAvoid(ctx, jobName, steps[..|steps| - 1]);
      StepLinesAvoid(ctx, jobName, steps[|steps| - 1]);
      SepFreeAppend(StepsLines(ctx, jobName, steps[..|steps| - 1]), StepLines(ctx, jobName, steps[|steps| - 1]), '\n');
    }
  }

  /** When nothing interpolated contains a newline, splitting a job's script at newlines gives back exactly those lines: the header, then per step an empty line, its echo line and at most one command line. */
  lemma ScriptLines(ctx: Context, actions: string, jobName: string, job: Job)
    requires ContextAvoids(ctx, '\n') && '\n' !in jobName && '\n' !in job.runsOn && '\n' !in actions
    requires forall k :: 0 <= k < |job.steps| ==> StepAvoids(job.steps[k], '\n')
    ensures Split(Script(ctx, actions, jobName, job), '\n') ==
      HeaderLines(ctx, jobName, job.runsOn, actions)[..58] + StepsLines(ctx, jobName, job.steps) + [""]
  {
    var head := HeaderLines(ctx, jobName, job.runsOn, actions)[..58];
    var lines := head + StepsLines(ctx, jobName, job.steps) + [""];
    ScriptAsLines(ctx, actions, jobName, job);
    HeaderLinesAvoid(ctx, jobName, job.runsOn, actions);
    StepsLinesAvoid(ctx, jobName, job.steps);
    assert SepFree(head, '\n');
    SepFreeAppend(head, StepsLines(ctx, jobName, job.steps), '\n');
    SepFreeAppend(head + StepsLines(ctx, jobName, job.steps), [""], '\n');
    SplitJoin(lines, '\n');
  }
}
