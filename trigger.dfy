/**
 * `should_trigger_workflow`: does a push to `ref` activate a workflow?
 *
 * The source splits the ref on '/', looks at segment 1 and, when it is
 * "heads" and the workflow has a push trigger, tests segment 2 for exact
 * membership in the branch list. Segments are indexed without bounds
 * checks; `TriggerDefined` is the domain on which the indexing does not
 * panic, and it is the precondition.
 */
module Triggers {
  import opened Strings
  import opened Workflows

  /** The indexing stays in bounds: segment 1 always exists, and segment 2 exists whenever it is read. */
  predicate TriggerDefined(w: Workflow, ref: string)
  {
    var segs := Split(ref, '/');
    |segs| >= 2 && (segs[1] == "heads" && w.on.push.Some? ==> |segs| >= 3)
  }

  /** lib.rs `should_trigger_workflow`. */
  predicate ShouldTrigger(w: Workflow, ref: string)
    requires TriggerDefined(w, ref)
  {
    var segs := Split(ref, '/');
    segs[1] == "heads" && w.on.push.Some? && segs[2] in w.on.push.value.branches
  }

  /** Push to a branch: `<p>/heads/<b>` triggers exactly when `b` is, character for character, one of the listed branches. Segment 0 is not looked at. */
  lemma BranchPush(w: Workflow, p: string, b: string)
    requires '/' !in p && '/' !in b
    ensures TriggerDefined(w, p + "/heads/" + b)
    ensures ShouldTrigger(w, p + "/heads/" + b) <==> w.on.push.Some? && b in w.on.push.value.branches
  {
    var ref := p + "/heads/" + b;
    assert ref == p + ['/'] + ("heads" + ['/'] + b);
    SplitCons(p, '/', "heads" + ['/'] + b);
    SplitCons("heads", '/', b);
    SplitSepFree(b, '/');
    assert Split(ref, '/') == [p, "heads", b];
  }

  /** Only the first component after "heads" is compared: `<p>/heads/<b>/<rest>` is matched as branch `b`. */
  lemma NestedBranchPush(w: Workflow, p: string, b: string, rest: string)
    requires '/' !in p && '/' !in b
    ensures TriggerDefined(w, p + "/heads/" + b + "/" + rest)
    ensures ShouldTrigger(w, p + "/heads/" + b + "/" + rest) <==> w.on.push.Some? && b in w.on.push.value.branches
  {
    var ref := p + "/heads/" + b + "/" + rest;
    assert ref == p + ['/'] + ("heads" + ['/'] + (b + ['/'] + rest));
    SplitCons(p, '/', "heads" + ['/'] + (b + ['/'] + rest));
    SplitCons("heads", '/', b + ['/'] + rest);
    SplitCons(b, '/', rest);
    assert Split(ref, '/')[..3] == [p, "heads", b];
  }

  /** A push whose segment 1 is not "heads" triggers no workflow and never panics, whether the ref ends there (`refs/tags`) or goes on (`refs/tags/v1`). */
  lemma NonBranchPush(w: Workflow, p: string, kind: string, tail: string)
    requires '/' !in p && '/' !in kind && kind != "heads"
    requires tail == [] || tail[0] == '/'
    ensures TriggerDefined(w, p + "/" + kind + tail)
    ensures !ShouldTrigger(w, p + "/" + kind + tail)
  {
    var ref := p + "/" + kind + tail;
    assert ref == p + ['/'] + (kind + tail);
    SplitCons(p, '/', kind + tail);
    if tail == [] {
      assert kind + tail == kind;
      SplitSepFree(kind, '/');
    } else {
      assert kind + tail == kind + ['/'] + tail[1..];
      SplitCons(kind, '/', tail[1..]);
    }
    assert Split(ref, '/')[1] == kind;
  }


  /** A workflow without a push trigger is never triggered; it only needs segment 1 to exist. */
  lemma NoPushNeverTriggers(w: Workflow, ref: string)
    requires w.on.push.None?
    ensures TriggerDefined(w, ref) <==> |Split(ref, '/')| >= 2
    ensures TriggerDefined(w, ref) ==> !ShouldTrigger(w, ref)
  {
  }

  /** An empty branch list, or one whose every entry contains '/', never matches any ref. */
  lemma UnmatchableBranches(w: Workflow, ref: string)
    requires w.on.push.Some?
    requires forall i :: 0 <= i < |w.on.push.value.branches| ==> '/' in w.on.push.value.branches[i]
    requires TriggerDefined(w, ref)
    ensures !ShouldTrigger(w, ref)
  {
    var segs := Split(ref, '/');
    if segs[1] == "heads" {
      assert '/' !in segs[2];
    }
  }

  /** A ref without '/' makes the source index out of bounds, whatever the workflow. */
  lemma NoSlashPanics(w: Workflow, ref: string)
    requires '/' !in ref
    ensures !TriggerDefined(w, ref)
  {
    SplitSepFree(ref, '/');
  }

  /** `<p>/heads` with nothing after it panics on a workflow with a push trigger (segment 2 is read). */
  lemma MissingBranchPanics(w: Workflow, p: string)
    requires '/' !in p && w.on.push.Some?
    ensures !TriggerDefined(w, p + "/heads")
  {
    var ref := p + "/heads";
    assert ref == p + ['/'] + "heads";
    SplitCons(p, '/', "heads");
    SplitSepFree("heads", '/');
  }

  /** Conversely, a triggering ref has the form `<p>/heads/<b><tail>` with `b` a listed branch and `tail` empty or starting with '/'. */
  lemma TriggerShape(w: Workflow, ref: string)
    requires TriggerDefined(w, ref) && ShouldTrigger(w, ref)
    ensures exists p, b, tail ::
      && ref == p + "/heads/" + b + tail
      && '/' !in p && '/' !in b
      && (tail == [] || tail[0] == '/')
      && b in w.on.push.value.branches
  {
    var segs := Split(ref, '/');
    JoinSplit(ref, '/');
    var head := segs[..3];
    var tail: string := if |segs| == 3 then [] else ['/'] + Join(segs[3..], '/');
    assert Join(head, '/') == segs[0] + "/heads/" + segs[2] by {
      assert head[1..] == ["heads", segs[2]];
      assert head[1..][1..] == [segs[2]];
      assert Join(head[1..], '/') == "heads" + ['/'] + segs[2];
      assert Join(head, '/') == segs[0] + ['/'] + Join(head[1..], '/');
    }
    if |segs| > 3 {
      assert segs == head + segs[3..];
      JoinAppend(head, segs[3..], '/');
    } else {
      assert segs == head;
    }
    var p, b := segs[0], segs[2];
    assert ref == p + "/heads/" + b + tail;
    assert '/' !in p && '/' !in b && (tail == [] || tail[0] == '/') && b in w.on.push.value.branches;
  }
}
