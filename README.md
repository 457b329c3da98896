# ghwebhook worker: from a push event to Slurm job scripts

This project models the core of the ghwebhook worker. The worker receives a
GitHub push event and reads the repository's workflow files. It keeps the
workflows that the push triggers. For every job of every kept workflow it
renders a Slurm batch script and submits it to the scheduler's REST endpoint.
Properties of that model are proved in Dafny.

The model follows the code, file by file:

- `workflow.dfy` (module `Workflows`): the parsed workflow file as datatypes,
  from `lib/src/types/workflow.rs`. Each `HashMap` is a sequence of
  (key, value) entries in the order the map yields them. `KeysDistinct`
  states that such a sequence enumerates a map. `WellFormed` states that every
  map of a workflow does, and `ProcessEvent` requires it of every parsed file.
- `strings.dfy` (module `Strings`): Rust's `str::split(char)`, which keeps
  empty pieces and always gives at least one piece. Also `split(..).next()`
  and `join`, with the lemmas that make split and join inverse to each other.
- `trigger.dfy` (module `Triggers`): `should_trigger_workflow`, plus its exact
  domain. The function indexes the split ref without bounds checks.
- `render.dfy` (module `Render`): the per-workflow action list
  (`flat_map`/`filter_map`/`join`), the job header, and the per-step blocks.
  `RenderStep` builds one step's text with `push_str`, as the source does, and
  is proved equal to the specification function `StepBlock`. `RenderJob` grows
  the script one step at a time and is proved equal to the specification
  function `Script`. The lemmas then read those functions back as lines.
- `pipeline.dfy` (module `Pipeline`): one event through the worker.
  - `CollectWorkflows` is the file loop that skips failures.
  - `Triggered` is the workflow filter.
  - `SubmitJob`, `DispatchWorkflow` and `Dispatch` are the workflow and job
    loops with the reply classification.
  - `ProcessEvent` is the whole event.
  - Every dispatch method is proved to produce exactly the log that `Follows`
    the specification `Plan`.
- `scenarios.dfy` (module `Scenarios`): a few concrete events, stated for
  every log the pipeline can return.

The event and the configuration are a small record, `Render.Context`, holding
the repository name, the full name, the ref and the GitHub token. The
filesystem, the YAML parser and the scheduler are inputs:

- the glob result is `listing`, which is `None` when the pattern fails;
- each entry of the listing is `Some(workflow)` when reading and parsing that
  file succeeded, `None` otherwise;
- `respond(n)` is the scheduler's reply to the n-th submission of the event.

## Verifying

All files are verified together, with a fixed resource limit rather than a
time limit:

    dafny verify --resource-limit 2000000 --verification-time-limit 0 --warn-contradictory-assumptions *.dfy

Some proofs, `Triggers.TriggerShape` among them, need these flags. Under the
default 30-second time limit and no resource limit they may fail or time out.

## Behaviour as written

Several behaviours of the code are easy to misread. The model follows the
code:

- The action list is not deduplicated. See `DuplicatesKept`.
- A step with neither `run` nor `uses` contributes only its echo line. The job
  goes on (`StepPrecedence`).
- `with` keys keep their case, so `token: abc` is exported as
  `INPUT_token=abc` (`ToolExports`). The fixed `INPUT_TOKEN=` assignment
  carries the configured GitHub token. A `with` key spelled `TOKEN` adds a
  second `INPUT_TOKEN=` assignment after it (`UpperTokenInput`); which of the
  two the step sees is up to `srun --export`, which is not modelled.
- Segment 0 of the ref is never looked at, so `x/heads/main` triggers like
  `refs/heads/main` (`BranchPush`).
- Only segment 2 is compared, so `refs/heads/feature/x` is matched as branch
  `feature` (`NestedBranchPush`).
- A present but empty `with` leaves a trailing comma after `RUNNER_TEMP=/tmp`
  (`ExportsLayout`).
- The action cache directory `/tmp/{repo_name}_{job_name}/actions_cache`
  names no workflow and no Slurm job id. Equally named jobs of two workflows
  therefore share it (`CacheDirInjective`).
- reqwest's `error_for_status` treats only 4xx and 5xx as errors. Any other
  status with a readable body is logged as a success (`Classify`).

## Model

| member | source | states |
|---|---|---|
| Strings.Split | ghwebhook/crates/lib/src/lib.rs:16 | `split('/')` always yields at least one piece, and no piece contains the separator |
| Strings.FirstPiece | ghwebhook/crates/rabbitmq-worker/src/main.rs:160-164 | `split("@").next()` is the prefix of the reference up to the first '@': it holds no '@', and the character after it, if any, is '@' |
| Strings.JoinSplit | ghwebhook/crates/lib/src/lib.rs:16 | joining the pieces of a split with the separator gives back the original ref |
| Strings.SplitJoin | ghwebhook/crates/rabbitmq-worker/src/main.rs:173 | splitting a join of one or more separator-free pieces gives back exactly those pieces (an empty list splits back as `[""]`) |
| Workflows.WellFormed | ghwebhook/crates/lib/src/types/workflow.rs:9-36 | defines the shape deserialisation guarantees: the job names are distinct, and so are the keys of every step's `with` and `env` |
| Workflows.ToMapExact | ghwebhook/crates/lib/src/types/workflow.rs:9 | a sequence of jobs with distinct names is exactly the map: one key per entry, each key maps to its own job, and no other keys |
| Triggers.TriggerDefined | ghwebhook/crates/lib/src/lib.rs:16-19 | defines the inputs on which the function does not panic: the split ref has a segment 1, and a segment 2 whenever segment 1 is `heads` and the workflow has a push trigger |
| Triggers.ShouldTrigger | ghwebhook/crates/lib/src/lib.rs:15-26 | defines the predicate: segment 1 of the ref split at '/' is `heads`, the workflow has a push trigger, and its branch list contains segment 2 exactly; its properties are the `Triggers` lemmas below |
| Triggers.BranchPush | ghwebhook/crates/lib/src/lib.rs:15-26 | for `<p>/heads/<b>` the call does not panic, and it triggers iff the workflow has a push trigger whose branch list contains `b` exactly; `p` is never checked |
| Triggers.NestedBranchPush | ghwebhook/crates/lib/src/lib.rs:16-19 | `<p>/heads/<b>/<rest>` is matched as branch `b`: only segment 2 is compared |
| Triggers.NonBranchPush | ghwebhook/crates/lib/src/lib.rs:17-25 | a ref `<p>/<kind><tail>` whose segment 1 `kind` is not `heads`, with `tail` empty (as in `refs/tags`) or starting with '/', is defined and never triggers |
| Triggers.NoPushNeverTriggers | ghwebhook/crates/lib/src/lib.rs:17-25 | without `on.push` the call is defined iff the ref has a segment 1, and then it is false |
| Triggers.UnmatchableBranches | ghwebhook/crates/lib/src/lib.rs:19 | an empty branch list, or one whose entries all contain '/', matches no ref |
| Triggers.NoSlashPanics | ghwebhook/crates/lib/src/lib.rs:16-17 | a ref without '/' is outside the domain (`ref_split[1]` panics) |
| Triggers.MissingBranchPanics | ghwebhook/crates/lib/src/lib.rs:16-19 | `<p>/heads` panics on a workflow with a push trigger (`ref_split[2]` is read) |
| Triggers.TriggerShape | ghwebhook/crates/lib/src/lib.rs:15-26 | conversely, a triggering ref is `<p>/heads/<b><tail>` with `b` a listed branch, and `tail` empty or starting with '/' |
| Render.StepActions | ghwebhook/crates/rabbitmq-worker/src/main.rs:158-169 | defines one job's part of the action list: for each step with `uses`, in step order, its repository quoted; its properties are `StepActionsMember` and `StepActionsCount` |
| Render.ActionRefs | ghwebhook/crates/rabbitmq-worker/src/main.rs:154-171 | defines the collected action list: the jobs' parts one after another, in map order; its properties are `ActionRefsMember` and `ActionRefsAppend` |
| Render.ActionList | ghwebhook/crates/rabbitmq-worker/src/main.rs:173 | defines the `REPOS` text: the collected entries joined with single spaces; `ActionListSplits` reads it back |
| Render.InputEntryReadBack | ghwebhook/crates/rabbitmq-worker/src/main.rs:256-259 | an `INPUT_{key}={value}` entry whose key has no '=' reads back: the variable name up to the first '=' is the key, and the rest is the value |
| Render.InputEntriesDistinct | ghwebhook/crates/rabbitmq-worker/src/main.rs:256-261 | distinct `with` keys without '=' give `INPUT_` entries with pairwise distinct variable names, so no input overrides another |
| Render.ActionRepoDropsVersion | ghwebhook/crates/rabbitmq-worker/src/main.rs:160-165 | the staged repository of `a@v` is `a` whatever the version, and a reference without '@' is kept whole |
| Render.Header | ghwebhook/crates/rabbitmq-worker/src/main.rs:177-236 | defines the formatted header: the template's lines joined with newlines; `HeaderLayout` reads it back line by line |
| Render.Exports | ghwebhook/crates/rabbitmq-worker/src/main.rs:255-268 | defines the `--export=` value: the fixed assignments joined with commas, then a comma and the joined `INPUT_` entries when `with` is present; `ExportsLayout` reads it back |
| Render.Command | ghwebhook/crates/rabbitmq-worker/src/main.rs:245-269 | defines a step's `srun` line: the node entry point when `uses` is present, else `bash -c` when `run` is present, else none; `StepPrecedence` states the precedence |
| Render.StepBlock | ghwebhook/crates/rabbitmq-worker/src/main.rs:241-269 | defines the text a step appends: a newline, the echo line, a newline, and the command line ended by a newline when there is one; `StepBlockAsLines` reads it back |
| Render.Script | ghwebhook/crates/rabbitmq-worker/src/main.rs:177-272 | defines a job's script: the header, then every step's block in step order; `ScriptAsLines` and `ScriptLines` read it back |
| Render.StepActionsMember | ghwebhook/crates/rabbitmq-worker/src/main.rs:158-169 | an entry is in a job's action list iff some `uses` step of the job has that quoted repository |
| Render.ActionRefsMember | ghwebhook/crates/rabbitmq-worker/src/main.rs:154-171 | an entry is in a workflow's action list iff some `uses` step of some job has that quoted repository |
| Render.ActionRefsAppend | ghwebhook/crates/rabbitmq-worker/src/main.rs:154-171 | the list for consecutive jobs is their lists one after another: order is kept and nothing is merged |
| Render.StepActionsCount | ghwebhook/crates/rabbitmq-worker/src/main.rs:158-169 | a job contributes exactly one entry per step that has `uses` |
| Render.DuplicatesKept | ghwebhook/crates/rabbitmq-worker/src/main.rs:154-173 | two steps using the same repository at different versions give two equal entries (no deduplication) |
| Render.ActionListSplits | ghwebhook/crates/rabbitmq-worker/src/main.rs:173-189 | when the action list is non-empty and no `uses` reference contains a space, splitting the joined list at spaces gives back exactly the quoted entries, quote characters included, in order and with duplicates |
| Render.HeaderLayout | ghwebhook/crates/rabbitmq-worker/src/main.rs:177-236 | when the repository name, the job name, `runs-on` and the action list contain no newline, the header is 59 lines: `--job-name`, `--partition`, the `.log`/`.err` file names and the cache directory carry the job's values; `REPOS=(…)` carries the action list; the trap (line 33) precedes staging (line 35) |
| Render.ExportsLayout | ghwebhook/crates/rabbitmq-worker/src/main.rs:255-268 | when the full name, the ref, the token and every `with` key and value contain no comma, `--export=` read back at the commas is the seven fixed assignments ending in `RUNNER_TEMP=/tmp`, then one `INPUT_` entry per input; an empty `with` adds one empty entry |
| Render.StepPrecedence | ghwebhook/crates/rabbitmq-worker/src/main.rs:245-269 | a step has a command iff it has `uses` or `run`; with `uses` present `run` is ignored; without `uses`, `with` is ignored; a step with neither yields only the empty line and the echo line |
| Render.EnvIgnored | ghwebhook/crates/rabbitmq-worker/src/main.rs:240-271 | a step's `env` changes nothing in its block |
| Render.JobNameIgnored | ghwebhook/crates/rabbitmq-worker/src/main.rs:175-272 | a job's own `name` changes nothing in its script; only the map key names the job |
| Render.EntryPointStaged | ghwebhook/crates/rabbitmq-worker/src/main.rs:245-265 | a `uses` step's repository is in its workflow's action list (and, when no `uses` reference of the workflow contains a space, among the pieces of `REPOS` split at spaces), and its command runs node on `<cache dir>/<repo>/dist/index.js` with that step's exports |
| Render.CacheDirInjective | ghwebhook/crates/rabbitmq-worker/src/main.rs:190 | within a repository, two jobs share an action cache directory iff their names are equal |
| Render.RenderStep | ghwebhook/crates/rabbitmq-worker/src/main.rs:240-271 | the text built for a step with `push_str` is exactly that step's block |
| Render.RenderJob | ghwebhook/crates/rabbitmq-worker/src/main.rs:175-272 | the script grown by the step loop is the header followed by one block per step, in step order |
| Render.StepBlockAsLines | ghwebhook/crates/rabbitmq-worker/src/main.rs:241-269 | a step's block is its lines (empty line, echo line, command if any), each ended by a newline |
| Render.StepBlocksAsLines | ghwebhook/crates/rabbitmq-worker/src/main.rs:240-272 | the blocks of all steps are all the steps' lines in step order, each ended by a newline |
| Render.ScriptAsLines | ghwebhook/crates/rabbitmq-worker/src/main.rs:177-272 | a job's script is its 58 header lines and then each step's lines, joined by newlines and ended with one |
| Render.ScriptLines | ghwebhook/crates/rabbitmq-worker/src/main.rs:177-272 | when no interpolated value contains a newline, splitting the script at newlines gives exactly the header lines, then per step an empty line, its echo line and at most one command line |
| Pipeline.CollectWorkflows | ghwebhook/crates/rabbitmq-worker/src/main.rs:87-129 | the file loop returns the workflows of exactly the files that parsed, in listing order |
| Pipeline.Parsed | ghwebhook/crates/rabbitmq-worker/src/main.rs:87-129 | defines the collected workflows: the files that parsed, in listing order; its properties are `ParsedMember` and `ParsedAppend` |
| Pipeline.ParsedMember | ghwebhook/crates/rabbitmq-worker/src/main.rs:89-128 | a workflow is collected iff some file parsed to it |
| Pipeline.ParsedAppend | ghwebhook/crates/rabbitmq-worker/src/main.rs:89-129 | a failing file neither stops nor changes what the later files contribute |
| Pipeline.Triggered | ghwebhook/crates/rabbitmq-worker/src/main.rs:135-141 | defines the filter: the collected workflows for which `should_trigger_workflow` holds, in their order; its properties are `TriggeredMember`, `TriggeredAppend` and `NothingTriggered` |
| Pipeline.TriggeredMember | ghwebhook/crates/rabbitmq-worker/src/main.rs:135-141 | a workflow is run iff it was collected and `should_trigger_workflow` holds for it |
| Pipeline.TriggeredAppend | ghwebhook/crates/rabbitmq-worker/src/main.rs:135-141 | the filter keeps order: filtering two lists gives the two filtered lists one after another |
| Pipeline.NothingTriggered | ghwebhook/crates/rabbitmq-worker/src/main.rs:143-146 | when no collected workflow is triggered, nothing is left to run |
| Pipeline.SearchPath | ghwebhook/crates/rabbitmq-worker/src/main.rs:263-280 | the request carries the script unchanged and starts the job in `/home/slurm`; the job's environment and every step's `PATH` name the same seven directories, in order |
| Pipeline.Request | ghwebhook/crates/rabbitmq-worker/src/main.rs:274-280 | defines the request body: the script, the one `PATH` entry, and `/home/slurm`; `SearchPath` states its fields |
| Pipeline.Classify | ghwebhook/crates/rabbitmq-worker/src/main.rs:294-316 | no reply gives a transport failure; a 4xx/5xx status gives a rejection; otherwise an unreadable body gives a body failure, and a readable one a success carrying the status and the body |
| Pipeline.Plan | ghwebhook/crates/rabbitmq-worker/src/main.rs:153-175 | defines the submission order: each triggered workflow's jobs in map order, workflow after workflow, each with its workflow's action list; its properties are `PlanCount`, `PlanAppend`, `PlanMember` and the three lemmas below |
| Pipeline.JobsPlanIsMap | ghwebhook/crates/rabbitmq-worker/src/main.rs:175 | for a well-formed workflow, the planned jobs enumerate the `jobs` map: one per key, each with that key's job, and no key left out |
| Pipeline.JobsPlanDistinct | ghwebhook/crates/rabbitmq-worker/src/main.rs:175-190 | for a well-formed workflow, the planned jobs have pairwise distinct names and so pairwise distinct action cache directories |
| Pipeline.RunJobsDistinct | ghwebhook/crates/rabbitmq-worker/src/main.rs:120-190 | every workflow an event runs came from a parsed file, so within it no two submitted jobs share a name or an action cache directory |
| Pipeline.Submit | ghwebhook/crates/rabbitmq-worker/src/main.rs:274-316 | defines one submission: the job's name, the request for its rendered script, and the classified reply |
| Pipeline.SubmitJob | ghwebhook/crates/rabbitmq-worker/src/main.rs:176-316 | one iteration of the job loop submits the job's rendered script and records the classified reply |
| Pipeline.DispatchWorkflow | ghwebhook/crates/rabbitmq-worker/src/main.rs:175-317 | the job loop appends one submission per job, in order, whatever each reply was |
| Pipeline.Dispatch | ghwebhook/crates/rabbitmq-worker/src/main.rs:153-318 | the workflow loop's log follows the plan: the n-th entry is the n-th planned job, answered by the n-th reply |
| Pipeline.ProcessEvent | ghwebhook/crates/rabbitmq-worker/src/main.rs:83-322 | a failed glob submits nothing; otherwise the log follows the plan of the triggered workflows among those that parsed; every parsed file is required to have map-shaped `jobs` and `with`/`env`, as hash-map deserialisation guarantees |
| Pipeline.PlanCount | ghwebhook/crates/rabbitmq-worker/src/main.rs:153-175 | exactly one submission per job of every triggered workflow |
| Pipeline.PlanAppend | ghwebhook/crates/rabbitmq-worker/src/main.rs:153-175 | the plan for several workflows is their plans one after another |
| Pipeline.PlanMember | ghwebhook/crates/rabbitmq-worker/src/main.rs:153-175 | every job of every triggered workflow is planned, with its own workflow's action list |
| Pipeline.EveryJobSubmitted | ghwebhook/crates/rabbitmq-worker/src/main.rs:294-316 | whatever the replies, every job of every triggered workflow appears in the log with its rendered script |
| Scenarios.SingleWorkflow | ghwebhook/crates/rabbitmq-worker/src/main.rs:135-141 | a one-file listing pushed to branch `b` runs its workflow iff `b` is one of its push branches |
| Scenarios.EchoTriggered | ghwebhook/crates/rabbitmq-worker/src/main.rs:135-146 | the echo workflow (push to `main`) runs for `refs/heads/main` and not for `refs/heads/dev` |
| Scenarios.RunStepLines | ghwebhook/crates/rabbitmq-worker/src/main.rs:240-268 | an unnamed `run: cmd` step adds an empty line, `echo "Running step: "` and the `bash -c "cmd"` command |
| Scenarios.RunStepScript | ghwebhook/crates/rabbitmq-worker/src/main.rs:177-272 | a one-step `run` job's script has 62 lines, its partition on line 3, and the step's three lines before the final empty one |
| Scenarios.EchoScript | ghwebhook/crates/rabbitmq-worker/src/main.rs:177-272 | the echo job's script runs `bash -c "echo hi"` on partition `small` |
| Scenarios.EchoPlan | ghwebhook/crates/rabbitmq-worker/src/main.rs:153-175 | the echo workflow plans its one job with an empty action list |
| Scenarios.RunPushToMain | ghwebhook/crates/rabbitmq-worker/src/main.rs:85-316 | a push to `main` submits exactly one script, for job `build`, with the expected lines, and a 200 reply with a body is a success |
| Scenarios.RunPushToDev | ghwebhook/crates/rabbitmq-worker/src/main.rs:143-146 | a push to `dev` submits nothing |
| Scenarios.ActionStepStaged | ghwebhook/crates/rabbitmq-worker/src/main.rs:154-173 | a job whose one step uses `repo@version` stages only `"repo"` |
| Scenarios.ToolActions | ghwebhook/crates/rabbitmq-worker/src/main.rs:154-173 | the tool workflow's action list is `"org/tool"`, without the version |
| Scenarios.ToolExports | ghwebhook/crates/rabbitmq-worker/src/main.rs:255-263 | `with: {token: abc}` is exported as `INPUT_token=abc` after the fixed assignments, and `INPUT_TOKEN` is the configured token |
| Scenarios.UpperTokenInput | ghwebhook/crates/rabbitmq-worker/src/main.rs:256-263 | `with: {TOKEN: x}` gives eight export pieces: piece 4 is the fixed `INPUT_TOKEN=` with the configured token, and piece 7 is a second `INPUT_TOKEN=x` |
| Scenarios.ToolCommand | ghwebhook/crates/rabbitmq-worker/src/main.rs:245-263 | node runs the entry point of the staged `org/tool` clone, not of `org/tool@v1` |
| Scenarios.TwoJobPlan | ghwebhook/crates/rabbitmq-worker/src/main.rs:153-175 | a workflow with two jobs plans exactly those two, in map order |
| Scenarios.RunRejectedThenAccepted | ghwebhook/crates/rabbitmq-worker/src/main.rs:294-316 | a 500 on the first job does not stop the second: both are submitted, in order, with their own outcomes |

## Left out

- The message bus is not modelled: the RabbitMQ consumer, its stream loop, `tokio::spawn`, the delivery error case and the consumer's close (main.rs lines 13-31 and 323-335). It is network and async plumbing.
- Message decoding is not modelled: the empty payload check and UTF-8 and JSON event parsing (lines 32-53). Only `ref_`, `repository.name` and `repository.full_name` of the event, and `github_token` of the configuration, are read by the core, and they are the fields of `Context`.
- The temporary directory, the clone, the path conversion, `glob` and the async file reads (lines 55-118) are foreign calls. Their results are the `listing` input of `ProcessEvent`. A failed temporary directory, clone or path conversion (lines 55-82) ends the event before anything is submitted, as a failed glob (lines 320-322) does, so all four are `listing == None`. Files that could not be read (lines 89-118) are `None` entries.
- YAML parsing (lines 120-127) is an input: a file either yields a `Workflow` or fails.
- The HTTP POST is an input (lines 282-293). Its URL and headers carry only configuration and are not modelled. `respond(n)` is the reply to the n-th submission.
- The `println!`/`eprintln!` logging is not modelled. As a result, the "No workflow files found" message (lines 131-133) has no counterpart.
- The iteration order of the `jobs` and `with` hash maps is unspecified at run time. Both are sequences taken in the order given. The same order is used for the action list and for the job loop, since the source iterates the same unmodified map twice.
- The `continue 'entrypoint` branch (lines 246-254) is unreachable, because `split("@").next()` always returns `Some`. `FirstPiece` therefore has no failure case.
- The panic of `should_trigger_workflow` on a ref with too few segments is the precondition `TriggerDefined` (and `AllDefined` for a whole listing). It is not a modelled error path.
- Pipeline.Classify: HTTP status codes are unbounded integers rather than reqwest's `StatusCode` range. Only the 400..599 error range matters to the code.
- Pipeline.ProcessEvent: requires that the trigger predicate is defined for every parsed workflow. The source would panic inside the filter otherwise.
- Pipeline.EveryJobSubmitted: assumes that every POST returns. `respond` is total, and neither `Response` nor `Outcome` can express a request that never completes. The source's client (main.rs line 21) sets no timeout, and `.send().await` (lines 291-292) runs inside the one sequential consumer task (lines 23-24). A scheduler that never answers would therefore block the remaining jobs and every later event. The contracts of `Dispatch`, `DispatchWorkflow` and `ProcessEvent` rest on the same assumption.
