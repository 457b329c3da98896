/**
 * The parsed shape of a CI workflow file (`on.push.branches`, `jobs.<name>`,
 * `runs-on`, `steps`), as the worker deserialises it.
 *
 * The source keeps `jobs`, `with` and `env` in hash maps. Their iteration
 * order is unspecified at run time, so here they are sequences of
 * (key, value) entries in whatever order the map yields them; a map's keys
 * are distinct, which `KeysDistinct` states.
 */
module Workflows {

  datatype Option<T> = None | Some(value: T)

  /** `on.push`: the branches a push must target to trigger the workflow. */
  datatype PushTrigger = PushTrigger(branches: seq<string>)

  /** `on`: only the push trigger is read. */
  datatype Trigger = Trigger(push: Option<PushTrigger>)

  /** One entry of `steps`. `run` and `uses` are independent, so both or neither may be present. */
  datatype Step = Step(
    name: Option<string>,
    run: Option<string>,
    uses: Option<string>,
    with: Option<seq<(string, string)>>,
    env: Option<seq<(string, string)>>)

  /** One value of `jobs`: a partition label and the ordered steps. Its own `name` is optional and unused. */
  datatype Job = Job(name: Option<string>, runsOn: string, steps: seq<Step>)

  /** A parsed workflow file. `jobs` is keyed by job name. */
  datatype Workflow = Workflow(name: Option<string>, on: Trigger, jobs: seq<(string, Job)>)

  /** The entries enumerate a map: no key occurs twice. */
  predicate KeysDistinct<V>(entries: seq<(string, V)>)
  {
    forall i, j :: 0 <= i < j < |entries| ==> entries[i].0 != entries[j].0
  }

  /** Every key-value collection of the workflow enumerates a map, as deserialising into hash maps guarantees. */
  predicate WellFormed(w: Workflow)
  {
    && KeysDistinct(w.jobs)
    && forall j :: 0 <= j < |w.jobs| ==> StepsWellFormed(w.jobs[j].1.steps)
  }

  predicate StepsWellFormed(steps: seq<Step>)
  {
    forall k :: 0 <= k < |steps| ==>
      && (steps[k].with.Some? ==> KeysDistinct(steps[k].with.value))
      && (steps[k].env.Some? ==> KeysDistinct(steps[k].env.value))
  }

  /** The map the entries enumerate. */
  function ToMap<V>(entries: seq<(string, V)>): map<string, V>
    decreases |entries|
  {
    if entries == [] then map[]
    else ToMap(entries[..|entries| - 1])[entries[|entries| - 1].0 := entries[|entries| - 1].1]
  }

  /** With distinct keys, the entries are exactly the map: one key per entry, and each key looks up its own value. */
  lemma {:induction false} ToMapExact<V>(entries: seq<(string, V)>)
    requires KeysDistinct(entries)
    ensures |ToMap(entries)| == |entries|
    ensures forall i :: 0 <= i < |entries| ==> entries[i].0 in ToMap(entries) && ToMap(entries)[entries[i].0] == entries[i].1
    ensures forall k :: k in ToMap(entries) ==> exists i :: 0 <= i < |entries| && entries[i].0 == k
    decreases |entries|
  {
    if entries != [] {
      var n := |entries| - 1;
      var init := entries[..n];
      assert KeysDistinct(init);
      ToMapExact(init);
      assert entries[n].0 !in ToMap(init) by {
        forall i | 0 <= i < |init| ensures init[i].0 != entries[n].0 {
          assert init[i] == entries[i];
        }
      }
      forall i | 0 <= i < |entries|
        ensures entries[i].0 in ToMap(entries) && ToMap(entries)[entries[i].0] == entries[i].1
      {
        if i < n {
          assert init[i] == entries[i];
        }
      }
      forall k | k in ToMap(entries)
        ensures exists i :: 0 <= i < |entries| && entries[i].0 == k
      {
        if k != entries[n].0 {
          var i :| 0 <= i < |init| && init[i].0 == k;
          assert entries[i].0 == k;
        }
      }
    }
  }
}
