/** Tasks bound by the resolver, over whole runs: which binding a task carries, what its calls are
    checked against, and why its Actions are never sent again blindly. */
module BoundRuns {
  import opened Common
  import opened AgentTask
  import opened Protocol
  import opened TaskInvariants
  import opened WorldInvariants
  import opened Dispatching
  import opened Runs
  import opened Retries
  import S = SkillBinding

  // ---- One binding, as the resolver gives it and as a task records it -----------------------------

  function SemanticsOf(k: S.Kind): Semantics
  {
    match k case Query => Query case Action => Action case Session => Session
  }

  function RecordedTool(t: S.BoundTool): ToolSpec
  {
    ToolSpec(t.toolId, SemanticsOf(t.kind), t.sha)
  }

  function Recorded(b: S.Binding): Binding
  {
    Binding(b.id, seq(|b.payload.tools|, i requires 0 <= i < |b.payload.tools| => RecordedTool(b.payload.tools[i])))
  }

  lemma {:induction false} SameTool(tools: seq<S.BoundTool>, recorded: seq<ToolSpec>, toolId: string)
    requires |recorded| == |tools| && forall i :: 0 <= i < |tools| ==> recorded[i] == RecordedTool(tools[i])
    ensures BoundTool(recorded, toolId) == S.Find(tools, toolId)
  {
    if tools != [] { SameTool(tools[1..], recorded[1..], toolId); }
  }

  /** The coordinator admits a Tool call of an executing bound task exactly when the resolver does, and
      under the digest the resolver bound. */
  lemma AdmissionAgrees(cfg: Config, t: Task, b: S.Binding, toolId: string, kind: S.Kind, r: Option<S.Runtime>,
                        h: S.Hashes)
    requires cfg.bound && t.status.Executing? && t.binding == Some(Recorded(b))
    ensures var sha := AdmittedTool(cfg, t, toolId, SemanticsOf(kind), S.StillLive(b.payload, toolId, r, h));
            && (sha.Some? <==> S.Admits(b.payload, toolId, kind, r, h))
            && (sha.Some? ==> sha.value == b.payload.tools[S.Find(b.payload.tools, toolId)].sha)
  {
    SameTool(b.payload.tools, Recorded(b).tools, toolId);
  }

  // ---- Runs whose bindings come from the resolver -------------------------------------------------

  /** The digests, and the text of a task identifier. */
  datatype Naming = Naming(hashes: S.Hashes, taskName: nat -> string)

  ghost predicate CollisionFree(n: Naming)
  {
    S.Injective(n.hashes) && forall a, b :: n.taskName(a) == n.taskName(b) ==> a == b
  }

  /** The manifest strips the Tool identifiers it requires. */
  ghost predicate Stripped(ids: seq<string>)
  {
    forall i :: 0 <= i < |ids| ==> Strip(ids[i]) == ids[i]
  }

  /** What freezing answered for the task with this identity is a result of the resolver, from any
      candidates, runtime and installed bundle. */
  ghost predicate FromResolver(n: Naming, id: nat, freeze: Freeze)
  {
    freeze.Frozen? ==>
      exists candidates: map<string, S.Payload>, candidateId: string, r: Option<S.Runtime>, b: S.Bundle ::
        Stripped(b.required) && Yields(n, id, freeze.binding, candidates, candidateId, r, b)
  }

  predicate Yields(n: Naming, id: nat, binding: Binding, candidates: map<string, S.Payload>, candidateId: string,
                   r: Option<S.Runtime>, b: S.Bundle)
  {
    var f := S.Freezing(candidates, candidateId, n.taskName(id), r, b, n.hashes);
    f.Some? && binding == Recorded(f.value)
  }

  ghost predicate CallResolved(n: Naming, w: World, c: Call)
  {
    c.Create? ==> FromResolver(n, w.nextUid, c.freeze)
  }

  ghost predicate Resolved(n: Naming, cfg: Config, w: World, steps: seq<Step>)
    decreases |steps|
  {
    steps == []
    || (CallResolved(n, w, steps[0].call) && Resolved(n, cfg, StepWorld(cfg, w, steps[0]), steps[1..]))
  }

  /** Every binding in the store was frozen for the very task that carries it. */
  ghost predicate Named(n: Naming, w: World)
  {
    forall i :: 0 <= i < |w.tasks| && w.tasks[i].binding.Some? ==>
      FromResolver(n, w.tasks[i].id, Frozen(w.tasks[i].binding.value))
  }

  lemma FrozenIdentity(n: Naming, a: nat, b: nat, x: Binding, y: Binding)
    requires CollisionFree(n) && FromResolver(n, a, Frozen(x)) && FromResolver(n, b, Frozen(y)) && x.id == y.id
    ensures a == b
  {
    var c1, i1, r1, b1: S.Bundle :| Stripped(b1.required) && Yields(n, a, x, c1, i1, r1, b1);
    var c2, i2, r2, b2: S.Bundle :| Stripped(b2.required) && Yields(n, b, y, c2, i2, r2, b2);
    assert n.hashes.ofBinding(c1[i1], n.taskName(a)) == n.hashes.ofBinding(c2[i2], n.taskName(b));
  }

  lemma FrozenTools(n: Naming, id: nat, x: Binding)
    requires FromResolver(n, id, Frozen(x))
    ensures forall k :: 0 <= k < |x.tools| ==> Strip(x.tools[k].toolId) == x.tools[k].toolId
  {
    var candidates, candidateId, r, b: S.Bundle :| Stripped(b.required) && Yields(n, id, x, candidates, candidateId, r, b);
    hide Strip;
    forall k | 0 <= k < |x.tools| ensures Strip(x.tools[k].toolId) == x.tools[k].toolId {
      assert x.tools[k].toolId == b.required[k];
    }
  }

  // ---- New rows ----------------------------------------------------------------------------------

  lemma {:induction false} RecoveryInsertsNothing(cfg: Config, w: World, taskId: nat, records: seq<Exec>,
                                                  answers: seq<Recovered>, at: int)
    ensures forall k :: 0 <= k < |RecoverFrom(cfg, w, taskId, records, answers, at)| ==>
              !RecoverFrom(cfg, w, taskId, records, answers, at)[k].Insert?
    decreases |records|
  {
    hide Finish, RecoveryAborts, StatusOf;
    if records != [] {
      var head := RecoverOne(cfg, w, taskId, records[0], Answer(answers), at);
      if !RecoveryAborts(cfg, w, taskId, records[0], Answer(answers)) {
        RecoveryInsertsNothing(cfg, Finish(w, head), taskId, records[1..], Rest(answers), at);
      }
    }
  }

  lemma {:induction false} RequestsInsertNothing(records: seq<Exec>)
    ensures forall k :: 0 <= k < |CancelRequests(records)| ==> !CancelRequests(records)[k].Insert?
  {
    if records != [] { RequestsInsertNothing(records[1..]); }
  }

  lemma RemoteInsertsNothing(cfg: Config, id: nat, rec: Exec, toolId: string, reply: Reply, trackedOk: bool, at: int)
    ensures forall k :: 0 <= k < |RemoteScript(cfg, id, rec, toolId, reply, trackedOk, at)| ==>
              !RemoteScript(cfg, id, rec, toolId, reply, trackedOk, at)[k].Insert?
  {}

  lemma StartsInsertNothing(cfg: Config, w: World, c: Call)
    requires c.StartAction? || c.StartSession?
    ensures forall k :: 0 <= k < |Script(cfg, w, c)| ==> !Script(cfg, w, c)[k].Insert?
  {
    hide RemoteScript, PathSafe, AdmittedTool, SameUnknown, Strip;
    var s := Script(cfg, w, c);
    var i := Find(w.tasks, c.taskId);
    if i < |w.tasks| && |s| > 1 {
      var t := w.tasks[i];
      var n := if c.StartAction? && t.beforeRef.None? then 1 else 0;
      RemoteInsertsNothing(cfg, t.id, s[n].m.rec, c.toolId, c.reply, c.trackedOk, c.at);
    }
  }

  lemma OthersInsertNothing(cfg: Config, w: World, c: Call)
    requires !c.Create?
    ensures forall k :: 0 <= k < |Script(cfg, w, c)| ==> !Script(cfg, w, c)[k].Insert?
  {
    hide RecoverFrom, CancelRequests, Mutate, StatusOf, PathSafe, AdmittedTool, CancelMutation, Closing, ActionScript,
         SessionScript, Strip, Records, Terminal, OwnedPending, HasUnknownRemote, Finish, OwnedIndex;
    if c.StartAction? || c.StartSession? {
      StartsInsertNothing(cfg, w, c);
    } else if c.Reconcile? {
      var i := ActiveTask(w.tasks);
      if i < |w.tasks| {
        var t := w.tasks[i];
        RecoveryInsertsNothing(cfg, Finish(w, Hold(cfg, t)), t.id, Records(t), c.found, c.at);
      }
    } else if c.CancelTask? {
      var i := Find(w.tasks, c.taskId);
      if i < |w.tasks| { RequestsInsertNothing(Records(w.tasks[i])); }
    }
  }

  lemma {:induction false} NoNewRow(w: World, effects: seq<Effect>, n: nat)
    requires forall k :: 0 <= k < |effects| ==> !effects[k].Insert?
    ensures |Cut(w, effects, n).tasks| == |w.tasks|
    decreases |effects|
  {
    hide Mutate;
    if effects != [] && n != 0 { NoNewRow(Apply(w, effects[0]), effects[1..], n - 1); }
  }

  /** The only new row a step brings is the one its Create call asked for, with the binding it froze. */
  lemma NewRow(cfg: Config, w: World, c: Call, n: nat)
    ensures var w' := Cut(w, Script(cfg, w, c), n);
            && |w.tasks| <= |w'.tasks| <= |w.tasks| + 1
            && (|w'.tasks| > |w.tasks| ==>
                  && c.Create? && w'.tasks[|w.tasks|].id == w.nextUid
                  && (w'.tasks[|w.tasks|].binding.Some? ==>
                        cfg.bound && c.freeze == Frozen(w'.tasks[|w.tasks|].binding.value)))
  {
    var s := Script(cfg, w, c);
    if !c.Create? {
      OthersInsertNothing(cfg, w, c);
      NoNewRow(w, s, n);
    } else {
      hide Strip, ActiveTask;
      assert s == CreateScript(cfg, w, c);
      if |s| == 2 { CutTwo(w, s, n); } else if |s| == 1 { assert s[1..] == []; }
    }
  }

  lemma CutTwo(w: World, s: seq<Effect>, n: nat)
    requires |s| == 2
    ensures Cut(w, s, n) == if n == 0 then w else if n == 1 then Apply(w, s[0]) else Apply(Apply(w, s[0]), s[1])
  {
    hide Apply;
    var w1 := Apply(w, s[0]);
    assert s[1..] == [s[1]] && s[1..][1..] == [];
    if n > 1 { assert Cut(w1, s[1..], n - 1) == Cut(Apply(w1, s[1]), s[1..][1..], n - 2); }
  }

  lemma StepNamed(n: Naming, cfg: Config, w: World, s: Step)
    requires Inv(cfg, w) && Named(n, w) && CallResolved(n, w, s.call)
    ensures Named(n, StepWorld(cfg, w, s))
  {
    var w' := StepWorld(cfg, w, s);
    StepInv(cfg, w, s);
    NewRow(cfg, w, s.call, if s.Done? then |Script(cfg, w, s.call)| else s.n);
    hide Inv, FromResolver, Script, StepWorld;
    forall i | 0 <= i < |w'.tasks| && w'.tasks[i].binding.Some?
      ensures FromResolver(n, w'.tasks[i].id, Frozen(w'.tasks[i].binding.value))
    {
      if i < |w.tasks| { assert Evolves(w.tasks[i], w'.tasks[i]); }
    }
  }

  lemma {:induction false} RunNamed(n: Naming, cfg: Config, w: World, steps: seq<Step>)
    requires Inv(cfg, w) && Named(n, w) && Resolved(n, cfg, w, steps)
    ensures Named(n, After(cfg, w, steps)) && Inv(cfg, After(cfg, w, steps))
    decreases |steps|
  {
    hide Inv, Named, StepWorld, Grows, CallResolved;
    if steps != [] {
      StepInv(cfg, w, steps[0]);
      StepNamed(n, cfg, w, steps[0]);
      RunNamed(n, cfg, StepWorld(cfg, w, steps[0]), steps[1..]);
    }
  }

  // ---- What follows --------------------------------------------------------------------------------

  /** In every run, however its calls end, whose bindings the resolver froze: no two tasks of the store
      share a binding identity. */
  lemma TasksHaveTheirOwnBinding(n: Naming, cfg: Config, steps: seq<Step>, i: nat, j: nat)
    requires CollisionFree(n) && Resolved(n, cfg, EMPTY, steps)
    requires i < |Reached(cfg, steps).tasks| && j < |Reached(cfg, steps).tasks|
    requires Reached(cfg, steps).tasks[i].binding.Some? && Reached(cfg, steps).tasks[j].binding.Some?
    requires Reached(cfg, steps).tasks[i].binding.value.id == Reached(cfg, steps).tasks[j].binding.value.id
    ensures i == j
  {
    var w := Reached(cfg, steps);
    EmptyInv(cfg);
    RunNamed(n, cfg, EMPTY, steps);
    hide Reached, FromResolver, Sound, PostsOk;
    FrozenIdentity(n, w.tasks[i].id, w.tasks[j].id, w.tasks[i].binding.value, w.tasks[j].binding.value);
  }

  /** The binding has an identity no task of the store carries. */
  predicate FreezesAnew(w: World, freeze: Freeze)
  {
    freeze.Frozen? ==>
      forall i :: 0 <= i < |w.tasks| && w.tasks[i].binding.Some? ==> w.tasks[i].binding.value.id != freeze.binding.id
  }

  /** Whatever the resolver freezes next is new to the store. */
  lemma FrozenIsNew(n: Naming, cfg: Config, w: World, freeze: Freeze)
    requires CollisionFree(n) && Inv(cfg, w) && Named(n, w) && FromResolver(n, w.nextUid, freeze)
    ensures FreezesAnew(w, freeze)
  {
    hide FromResolver;
    if freeze.Frozen? {
      forall i | 0 <= i < |w.tasks| && w.tasks[i].binding.Some?
        ensures w.tasks[i].binding.value.id != freeze.binding.id
      {
        assert Sound(cfg, w.tasks[i], w.nextUid);
        if w.tasks[i].binding.value.id == freeze.binding.id {
          FrozenIdentity(n, w.tasks[i].id, w.nextUid, w.tasks[i].binding.value, freeze.binding);
        }
      }
    }
  }

  /** Every POST carries the Tool identifier as it is stored. */
  ghost predicate PostsStripped(w: World)
  {
    forall k :: 0 <= k < |w.posts| ==> Strip(w.posts[k].toolId) == w.posts[k].toolId
  }

  lemma SentToolListed(cfg: Config, w: World, c: Call, p: Post)
    requires cfg.bound && Justified(w, c, p) && Script(cfg, w, c) != []
    ensures var t := w.tasks[Find(w.tasks, c.taskId)];
            t.binding.Some? && exists k :: 0 <= k < |t.binding.value.tools| && t.binding.value.tools[k].toolId == p.toolId
  {
    hide PathSafe, SameUnknown, RemoteScript;
    var t := w.tasks[Find(w.tasks, c.taskId)];
    var tools := t.binding.value.tools;
    assert BoundTool(tools, p.toolId) < |tools|;
  }

  lemma StepPostsStripped(n: Naming, cfg: Config, w: World, s: Step)
    requires cfg.bound && Named(n, w) && PostsStripped(w)
    ensures PostsStripped(StepWorld(cfg, w, s))
  {
    var script := Script(cfg, w, s.call);
    var w' := StepWorld(cfg, w, s);
    var d := Dispatches(script);
    CutPosts(w, script, if s.Done? then |script| else s.n);
    assert w'.posts <= w.posts + d;
    hide FromResolver, Script, Strip, StepWorld;
    forall k | 0 <= k < |w'.posts| ensures Strip(w'.posts[k].toolId) == w'.posts[k].toolId {
      assert w'.posts[k] == (w.posts + d)[k];
      if k >= |w.posts| { SentStripped(n, cfg, w, s.call, k - |w.posts|); }
    }
  }

  lemma SentStripped(n: Naming, cfg: Config, w: World, c: Call, k: nat)
    requires cfg.bound && Named(n, w) && k < |Dispatches(Script(cfg, w, c))|
    ensures var p := Dispatches(Script(cfg, w, c))[k]; Strip(p.toolId) == p.toolId
  {
    var p := Dispatches(Script(cfg, w, c))[k];
    ScriptDispatches(cfg, w, c);
    assert Script(cfg, w, c) != [];
    hide FromResolver, Script, Strip, Justified, Dispatches;
    JustifiedRow(w, c, p);
    SentToolListed(cfg, w, c, p);
    var t := w.tasks[Find(w.tasks, c.taskId)];
    FrozenTools(n, t.id, t.binding.value);
  }

  lemma JustifiedRow(w: World, c: Call, p: Post)
    requires Justified(w, c, p)
    ensures (c.InvokeQuery? || c.StartAction? || c.StartSession?) && Find(w.tasks, c.taskId) < |w.tasks|
  {}

  lemma {:induction false} RunPostsStripped(n: Naming, cfg: Config, w: World, steps: seq<Step>)
    requires cfg.bound && Inv(cfg, w) && Named(n, w) && PostsStripped(w) && Resolved(n, cfg, w, steps)
    ensures PostsStripped(After(cfg, w, steps))
    decreases |steps|
  {
    hide Inv, Named, StepWorld, Grows, CallResolved, PostsStripped;
    if steps != [] {
      StepInv(cfg, w, steps[0]);
      StepNamed(n, cfg, w, steps[0]);
      StepPostsStripped(n, cfg, w, steps[0]);
      RunPostsStripped(n, cfg, StepWorld(cfg, w, steps[0]), steps[1..]);
    }
  }

  /** With a resolver there is no padding to speak of: in every disciplined run, of two POSTs of one
      Action the earlier is known to have become an invocation. */
  lemma NoBlindBoundRetry(n: Naming, cfg: Config, steps: seq<Step>, k: nat, l: nat)
    requires cfg.bound && Resolved(n, cfg, EMPTY, steps) && Disciplined(cfg, EMPTY, steps, true)
    requires k < l < |Reached(cfg, steps).posts|
    requires SameAction(Reached(cfg, steps).posts[k], Reached(cfg, steps).posts[l])
    ensures Known(Reached(cfg, steps), Reached(cfg, steps).posts[k])
  {
    EmptyInv(cfg);
    RunPostsStripped(n, cfg, EMPTY, steps);
    hide Reached, Known, Disciplined, Resolved;
    NoBlindRetry(cfg, steps, k, l);
  }
}
