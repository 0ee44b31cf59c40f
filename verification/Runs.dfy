/** Whole lives of the coordinator: any sequence of calls, each of which may run to its end, be
    killed with the process, or be abandoned half-way, against any answers of the outside world. */
module Runs {
  import opened Common
  import opened AgentTask
  import opened Protocol
  import opened TaskInvariants
  import opened WorldInvariants

  /** A call that ends; one the process died in; one cancelled while the process lives on. */
  datatype Step = Done(call: Call) | Killed(call: Call, n: nat) | Abandoned(call: Call, n: nat)

  function StepWorld(cfg: Config, w: World, s: Step): World
  {
    var script := Script(cfg, w, s.call);
    Cut(w, script, if s.Done? then |script| else s.n)
  }

  function After(cfg: Config, w: World, steps: seq<Step>): World
    decreases |steps|
  {
    if steps == [] then w else After(cfg, StepWorld(cfg, w, steps[0]), steps[1..])
  }

  lemma StepInv(cfg: Config, w: World, s: Step)
    requires Inv(cfg, w)
    ensures Inv(cfg, StepWorld(cfg, w, s)) && Grows(w, StepWorld(cfg, w, s))
  {
    hide Inv, Grows, Script, Legal;
    ScriptLegal(cfg, w, s.call);
    CutInv(cfg, w, Script(cfg, w, s.call), if s.Done? then |Script(cfg, w, s.call)| else s.n);
  }

  /** The invariant holds after any run, and a run only ever extends history. */
  lemma {:induction false} RunInv(cfg: Config, w: World, steps: seq<Step>)
    requires Inv(cfg, w)
    ensures Inv(cfg, After(cfg, w, steps)) && Grows(w, After(cfg, w, steps))
    decreases |steps|
  {
    hide Inv, Grows, StepWorld;
    if steps == [] {
      GrowsReflexive(w);
    } else {
      var w1 := StepWorld(cfg, w, steps[0]);
      StepInv(cfg, w, steps[0]);
      RunInv(cfg, w1, steps[1..]);
      GrowsTransitive(w, w1, After(cfg, w, steps));
    }
  }

  lemma {:induction false} RunSplit(cfg: Config, w: World, a: seq<Step>, b: seq<Step>)
    ensures After(cfg, w, a + b) == After(cfg, After(cfg, w, a), b)
    decreases |a|
  {
    hide StepWorld;
    if a == [] {
      assert a + b == b;
    } else {
      assert (a + b)[1..] == a[1..] + b;
      RunSplit(cfg, StepWorld(cfg, w, a[0]), a[1..], b);
    }
  }

  lemma EmptyInv(cfg: Config)
    ensures Inv(cfg, EMPTY)
  {}

  /** The store after a run that started with an empty one. */
  function Reached(cfg: Config, steps: seq<Step>): World
  {
    After(cfg, EMPTY, steps)
  }

  lemma ReachedInv(cfg: Config, steps: seq<Step>)
    ensures Inv(cfg, Reached(cfg, steps))
  {
    hide Inv, Grows;
    EmptyInv(cfg);
    RunInv(cfg, EMPTY, steps);
  }

  // ---- What holds in every reachable store ---------------------------------------------------

  /** One non-terminal task at most. */
  lemma SingleActiveTask(cfg: Config, steps: seq<Step>, i: nat, j: nat)
    requires i < |Reached(cfg, steps).tasks| && j < |Reached(cfg, steps).tasks|
    requires !Terminal(Reached(cfg, steps).tasks[i]) && !Terminal(Reached(cfg, steps).tasks[j])
    ensures i == j
  {
    hide Reached, Sound, PostsOk;
    ReachedInv(cfg, steps);
  }

  /** Revision ledger: numbers, closing, the active revision, and the attempts they hold. */
  lemma RevisionLedger(cfg: Config, steps: seq<Step>, i: nat)
    requires i < |Reached(cfg, steps).tasks|
    ensures var t := Reached(cfg, steps).tasks[i];
            && t.revisions != []
            && (forall k :: 0 <= k < |t.revisions| ==> t.revisions[k].number == k + 1)
            && (forall k :: 0 <= k < |t.revisions| ==> (t.revisions[k].closed <==> k < |t.revisions| - 1))
            && t.activeRevisionId == t.revisions[|t.revisions| - 1].id
            && t.attempts == AllAttempts(t.revisions)
  {
    hide Reached, PostsOk;
    ReachedInv(cfg, steps);
    assert Sound(cfg, Reached(cfg, steps).tasks[i], Reached(cfg, steps).nextUid);
  }

  /** What a `succeeded` task owes its status to. */
  lemma SuccessIsEarned(cfg: Config, steps: seq<Step>, i: nat)
    requires i < |Reached(cfg, steps).tasks| && Reached(cfg, steps).tasks[i].status.Succeeded?
    ensures var t := Reached(cfg, steps).tasks[i];
            && Records(t) != []
            && (t.mode.Off? || t.mode.Audit? ==>
                  forall k :: 0 <= k < |Records(t)| && !Records(t)[k].tool.semantics.Session? ==>
                    Records(t)[k].status.Succeeded?)
            && (t.mode.Enforce? || t.mode.Recovery? ==>
                  t.verdict.Some? && t.verdict.value.name.Success?
                  && t.revisions[|t.revisions| - 1].verdict == t.verdict)
  {
    hide Reached, PostsOk, Ledger, RecordsOk;
    ReachedInv(cfg, steps);
    assert Sound(cfg, Reached(cfg, steps).tasks[i], Reached(cfg, steps).nextUid);
  }

  /** Every record of a bound task carries that binding and a Tool it lists. */
  lemma RecordsStayBound(cfg: Config, steps: seq<Step>, i: nat, k: nat)
    requires i < |Reached(cfg, steps).tasks| && k < |Records(Reached(cfg, steps).tasks[i])|
    ensures BoundRecord(Reached(cfg, steps).tasks[i], Records(Reached(cfg, steps).tasks[i])[k])
  {
    hide Reached, PostsOk, Ledger;
    ReachedInv(cfg, steps);
    assert Sound(cfg, Reached(cfg, steps).tasks[i], Reached(cfg, steps).nextUid);
  }

  /** Cancellation, once requested, leaves only three statuses, and `cancelled` is a claim about
      every Action. */
  lemma CancellationLatch(cfg: Config, steps: seq<Step>, i: nat)
    requires i < |Reached(cfg, steps).tasks|
    ensures var t := Reached(cfg, steps).tasks[i];
            && (t.cancellationRequested ==> t.status.Cancelling? || t.status.Cancelled? || t.status.Failed?)
            && (t.status.Cancelling? || t.status.Cancelled? ==> t.cancellationRequested)
            && (t.status.Cancelled? ==>
                  forall k :: 0 <= k < |Records(t)| && Records(t)[k].tool.semantics.Action? ==>
                    Records(t)[k].status.Cancelled? || Records(t)[k].status.Stopped?)
  {
    hide Reached, PostsOk, Ledger, RecordsOk;
    ReachedInv(cfg, steps);
    assert Sound(cfg, Reached(cfg, steps).tasks[i], Reached(cfg, steps).nextUid);
  }

  /** The replan budget bounds the revisions, and a waiting task has budget left. */
  lemma ReplanBudget(cfg: Config, steps: seq<Step>, i: nat)
    requires i < |Reached(cfg, steps).tasks|
    ensures var t := Reached(cfg, steps).tasks[i];
            && |t.revisions| <= cfg.maxReplans + 1
            && (t.status.AwaitingReplan? ==>
                  t.mode.Recovery? && t.replanDeadline.Some? && |t.revisions| <= cfg.maxReplans)
  {
    hide Reached, PostsOk, Ledger, RecordsOk;
    ReachedInv(cfg, steps);
    assert Sound(cfg, Reached(cfg, steps).tasks[i], Reached(cfg, steps).nextUid);
  }

  /** A waiting task can always be resumed before its deadline with a non-blank reason, which
      leaves it executing a new revision and its budget one smaller. */
  lemma WaitingTaskResumes(cfg: Config, steps: seq<Step>, i: nat, reason: string, now: int)
    requires i < |Reached(cfg, steps).tasks| && Reached(cfg, steps).tasks[i].status.AwaitingReplan?
    requires now < Reached(cfg, steps).tasks[i].replanDeadline.GetOr(now + 1) && Strip(reason) != ""
    ensures var w := Reached(cfg, steps);
            var t := w.tasks[i];
            var w' := StepWorld(cfg, w, Done(BeginRevision(t.id, reason, now)));
            && |w'.tasks| == |w.tasks| && w'.tasks[i].status.Executing?
            && |w'.tasks[i].revisions| == |t.revisions| + 1 <= cfg.maxReplans + 1
            && w'.tasks[i].verdict == None && Records(w'.tasks[i]) == Records(t)
  {
    var w := Reached(cfg, steps);
    var t := w.tasks[i];
    ReplanBudget(cfg, steps, i);
    RevisionLedger(cfg, steps, i);
    ReachedInv(cfg, steps);
    FindAt(w.tasks, i);
    assert Ledger(t) by { assert Sound(cfg, t, w.nextUid); }
    hide Reached, Inv;
    ActiveIsLast(t);
    var m := MBeginRevision(w.nextUid, Strip(reason));
    BeginRevisionShape(t, m);
    FinishOne(w, Update(t.id, m));
  }
}
