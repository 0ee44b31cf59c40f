/** Dispatch safety over whole runs: intents are written ahead, nothing is dispatched twice or
    after cancellation, recovery sends nothing, and an Action whose fate nobody can learn is
    never sent again. */
module Dispatching {
  import opened Common
  import opened AgentTask
  import opened Protocol
  import opened TaskInvariants
  import opened WorldInvariants
  import opened Runs

  // ---- The requests a script sends -----------------------------------------------------------

  function Dispatches(effects: seq<Effect>): seq<Post>
  {
    if effects == [] then []
    else (if effects[0].Dispatch? then [effects[0].post] else []) + Dispatches(effects[1..])
  }

  lemma {:induction false} DispatchesConcat(a: seq<Effect>, b: seq<Effect>)
    ensures Dispatches(a + b) == Dispatches(a) + Dispatches(b)
  {
    if a == [] {
      assert a + b == b;
    } else {
      var first := if a[0].Dispatch? then [a[0].post] else [];
      DispatchesConcat(a[1..], b);
      assert (a + b)[1..] == a[1..] + b && (a + b)[0] == a[0];
      assert Dispatches(a + b) == first + Dispatches(a[1..] + b);
      assert first + (Dispatches(a[1..]) + Dispatches(b)) == (first + Dispatches(a[1..])) + Dispatches(b);
    }
  }

  lemma {:induction false} NoDispatches(effects: seq<Effect>)
    requires forall k :: 0 <= k < |effects| ==> !effects[k].Dispatch?
    ensures Dispatches(effects) == []
  {
    if effects != [] { NoDispatches(effects[1..]); }
  }

  /** A cut script has sent a prefix of the script's requests. */
  lemma {:induction false} CutPosts(w: World, effects: seq<Effect>, n: nat)
    ensures w.posts <= Cut(w, effects, n).posts <= w.posts + Dispatches(effects)
    ensures n >= |effects| ==> Cut(w, effects, n).posts == w.posts + Dispatches(effects)
    decreases |effects|
  {
    hide Mutate, Find;
    if effects != [] && n != 0 {
      CutPosts(Apply(w, effects[0]), effects[1..], n - 1);
      var first := if effects[0].Dispatch? then [effects[0].post] else [];
      assert w.posts + Dispatches(effects) == (w.posts + first) + Dispatches(effects[1..]);
    }
  }

  /** The control requests among some effects. */
  function Asked(effects: seq<Effect>): seq<Control>
  {
    if effects == [] then [] else (if effects[0].Ask? then [effects[0].control] else []) + Asked(effects[1..])
  }

  lemma {:induction false} AskedConcat(a: seq<Effect>, b: seq<Effect>)
    ensures Asked(a + b) == Asked(a) + Asked(b)
  {
    if a == [] {
      assert a + b == b;
    } else {
      var first := if a[0].Ask? then [a[0].control] else [];
      AskedConcat(a[1..], b);
      assert (a + b)[1..] == a[1..] + b && (a + b)[0] == a[0];
      assert Asked(a + b) == first + Asked(a[1..] + b);
      assert first + (Asked(a[1..]) + Asked(b)) == (first + Asked(a[1..])) + Asked(b);
    }
  }

  lemma {:induction false} FinishAsks(w: World, effects: seq<Effect>)
    ensures Finish(w, effects).controls == w.controls + Asked(effects)
    decreases |effects|
  {
    hide Mutate;
    if effects != [] {
      FinishAsks(Apply(w, effects[0]), effects[1..]);
      var first := if effects[0].Ask? then [effects[0].control] else [];
      assert w.controls + (first + Asked(effects[1..])) == (w.controls + first) + Asked(effects[1..]);
    }
  }

  /** The only request of a call: sent for an executing task, with the caller's own Tool and
      arguments and an identity never used before; an Action also passed the retry guard. */
  predicate Justified(w: World, c: Call, p: Post)
  {
    && (c.InvokeQuery? || c.StartAction? || c.StartSession?)
    && var i := Find(w.tasks, c.taskId);
       && i < |w.tasks| && w.tasks[i].status.Executing?
       && p.caller == Caller(c.taskId, w.tasks[i].activeRevisionId, w.nextUid)
       && p.toolId == c.toolId && p.arguments == c.arguments
       && p.semantics == (if c.InvokeQuery? then Query else if c.StartAction? then Action else Session)
       && (c.StartAction? ==> !SameUnknown(w.tasks[i], c.toolId, c.arguments))
  }

  lemma SentDispatches(reply: Reply, p: Post)
    ensures Dispatches(Sent(reply, p)) == [] || Dispatches(Sent(reply, p)) == [p]
  {}

  lemma RemoteDispatches(cfg: Config, id: nat, rec: Exec, toolId: string, reply: Reply, trackedOk: bool, at: int)
    ensures var p := Post(rec.caller, toolId, rec.arguments, rec.tool.semantics);
            var d := Dispatches(RemoteScript(cfg, id, rec, toolId, reply, trackedOk, at));
            d == [] || d == [p]
  {
    var p := Post(rec.caller, toolId, rec.arguments, rec.tool.semantics);
    var rest := [Update(id, Outcome(rec, reply, at))] + Tracking(cfg, id, rec, reply, trackedOk, at);
    RemoteParts(cfg, id, rec, toolId, reply, trackedOk, at);
    SentDispatches(reply, p);
    NoDispatches(rest);
    DispatchesConcat(Sent(reply, p), rest);
  }

  lemma StartDispatches(before: seq<Effect>, first: Effect, tail: seq<Effect>)
    requires !first.Dispatch? && forall k :: 0 <= k < |before| ==> !before[k].Dispatch?
    ensures Dispatches(before + [first] + tail) == Dispatches(tail)
  {
    NoDispatches(before + [first]);
    DispatchesConcat(before + [first], tail);
  }

  lemma QueryDispatches(cfg: Config, w: World, c: Call)
    requires c.InvokeQuery?
    ensures var d := Dispatches(QueryScript(cfg, w, c)); d == [] || (|d| == 1 && Justified(w, c, d[0]))
  {
    hide Mutate, PathSafe;
    if QueryScript(cfg, w, c) != [] {
      QueryParts(cfg, w, c);
      var t := w.tasks[Find(w.tasks, c.taskId)];
      var sha := AdmittedTool(cfg, t, c.toolId, Query, c.live);
      var rec := Intent(t, w.nextUid, c.toolId, Query, sha.value, TaskOwned, c.arguments, c.at);
      var p := Post(rec.caller, c.toolId, c.arguments, Query);
      var last := Update(t.id, QueryOutcome(rec, c.reply, c.at));
      SentDispatches(c.reply, p);
      NoDispatches([last]);
      DispatchesConcat(Sent(c.reply, p), [last]);
      StartDispatches([], Update(t.id, MAppend(rec)), Sent(c.reply, p) + [last]);
      assert QueryScript(cfg, w, c) == [] + [Update(t.id, MAppend(rec))] + (Sent(c.reply, p) + [last]);
    }
  }

  lemma ActionDispatches(cfg: Config, w: World, c: Call)
    requires c.StartAction?
    ensures var d := Dispatches(ActionScript(cfg, w, c)); d == [] || (|d| == 1 && Justified(w, c, d[0]))
  {
    hide Mutate, RemoteScript, SameUnknown;
    var s := ActionScript(cfg, w, c);
    if s != [] {
      var t := w.tasks[Find(w.tasks, c.taskId)];
      if PathSafe(c.toolId) {
        var rec := s[|Before(t, c)|].m.rec;
        RemoteDispatches(cfg, t.id, rec, c.toolId, c.reply, c.trackedOk, c.at);
        StartDispatches(Before(t, c), Update(t.id, MAppend(rec)),
                        RemoteScript(cfg, t.id, rec, c.toolId, c.reply, c.trackedOk, c.at));
      } else {
        NoDispatches(s);
      }
    }
  }

  lemma SessionDispatches(cfg: Config, w: World, c: Call)
    requires c.StartSession?
    ensures var d := Dispatches(SessionScript(cfg, w, c)); d == [] || (|d| == 1 && Justified(w, c, d[0]))
  {
    hide Mutate, RemoteScript, PathSafe;
    var s := SessionScript(cfg, w, c);
    if s != [] {
      var t := w.tasks[Find(w.tasks, c.taskId)];
      var rec := s[0].m.rec;
      var tail := RemoteScript(cfg, t.id, rec, c.toolId, c.reply, c.trackedOk, c.at);
      RemoteDispatches(cfg, t.id, rec, c.toolId, c.reply, c.trackedOk, c.at);
      StartDispatches([], Update(t.id, MAppend(rec)), tail);
      assert s == [] + [Update(t.id, MAppend(rec))] + tail;
    }
  }

  /** Recovery reads and repairs; it never sends a Query, an Action or a Session again. */
  lemma RecoverySendsNothing(cfg: Config, w: World, c: Call, n: nat)
    requires c.Reconcile?
    ensures Cut(w, Script(cfg, w, c), n).posts == w.posts
  {
    hide ReconcileScript;
    ReconcileRepairs(cfg, w, c);
    NoDispatches(Script(cfg, w, c));
    CutPosts(w, Script(cfg, w, c), n);
  }

  /** No other call sends an execution request either. */
  lemma ScriptDispatches(cfg: Config, w: World, c: Call)
    ensures var d := Dispatches(Script(cfg, w, c)); d == [] || (|d| == 1 && Justified(w, c, d[0]))
  {
    if c.InvokeQuery? {
      QueryDispatches(cfg, w, c);
    } else if c.StartAction? {
      ActionDispatches(cfg, w, c);
    } else if c.StartSession? {
      SessionDispatches(cfg, w, c);
    } else if c.Reconcile? {
      RecoverySendsNothing(cfg, w, c, |Script(cfg, w, c)|);
      CutPosts(w, Script(cfg, w, c), |Script(cfg, w, c)|);
      assert w.posts + Dispatches(Script(cfg, w, c)) == w.posts;
      assert |Dispatches(Script(cfg, w, c))| == 0;
    } else {
      OtherSilent(cfg, w, c);
      NoDispatches(Script(cfg, w, c));
    }
  }

  lemma OtherSilent(cfg: Config, w: World, c: Call)
    requires !c.InvokeQuery? && !c.StartAction? && !c.StartSession? && !c.Reconcile?
    ensures forall k :: 0 <= k < |Script(cfg, w, c)| ==> !Script(cfg, w, c)[k].Dispatch?
  {
    hide Mutate, Release, Closing, CancelMutation, NewTask;
    if c.CancelTask? {
      var i := Find(w.tasks, c.taskId);
      if i < |w.tasks| {
        CancelRequestsQuiet(Records(w.tasks[i]), c.answers);
        ReleaseQuiet(cfg, Mutate(w.tasks[i], CancelMutation(w.tasks[i], c.answers, c.at)));
      }
    } else if c.Finalize? {
      var i := Find(w.tasks, c.taskId);
      if i < |w.tasks| {
        var t1 := Mutate(w.tasks[i], MAfter(c.after, c.bundle));
        ReleaseQuiet(cfg, Mutate(t1, Closing(cfg, t1, c.verifier, c.now)));
      }
    } else if c.BeginRevision? {
      var i := Find(w.tasks, c.taskId);
      if i < |w.tasks| { ReleaseQuiet(cfg, Mutate(w.tasks[i], MFailReplan)); }
    }
  }

  // ---- Write-ahead intents -----------------------------------------------------------------

  lemma {:induction false} LegalAt(cfg: Config, w: World, effects: seq<Effect>, n: nat)
    requires Legal(cfg, w, effects) && n < |effects|
    ensures EffectOk(cfg, Cut(w, effects, n), effects[n])
    decreases |effects|
  {
    hide EffectOk, Apply;
    if n > 0 { LegalAt(cfg, Apply(w, effects[0]), effects[1..], n - 1); }
  }

  /** At the moment of any POST, in any run, the store already holds a record with exactly its
      caller identity, Tool, semantics and arguments, and that identity was never POSTed before. */
  lemma WriteAhead(cfg: Config, steps: seq<Step>, c: Call, n: nat)
    requires n < |Script(cfg, Reached(cfg, steps), c)| && Script(cfg, Reached(cfg, steps), c)[n].Dispatch?
    ensures var w := Reached(cfg, steps);
            var p := Script(cfg, w, c)[n].post;
            var now := Cut(w, Script(cfg, w, c), n);
            Backed(now.tasks, p) && forall k :: 0 <= k < |now.posts| ==> now.posts[k].caller != p.caller
  {
    hide Reached, Inv, Script, Cut, Backed;
    var w := Reached(cfg, steps);
    ReachedInv(cfg, steps);
    ScriptLegal(cfg, w, c);
    LegalAt(cfg, w, Script(cfg, w, c), n);
  }

  /** Every POST the Gateway ever received belongs to one record, and no record to two POSTs. */
  lemma NoDoublePost(cfg: Config, steps: seq<Step>, k: nat, l: nat)
    requires k < |Reached(cfg, steps).posts| && l < |Reached(cfg, steps).posts|
    ensures Backed(Reached(cfg, steps).tasks, Reached(cfg, steps).posts[k])
    ensures Reached(cfg, steps).posts[k].caller == Reached(cfg, steps).posts[l].caller ==> k == l
  {
    hide Reached, Sound, Backed;
    ReachedInv(cfg, steps);
  }

  // ---- Nothing is dispatched any more ----------------------------------------------------------

  /** The task takes no more executions: it ended, or its cancellation was requested. */
  predicate Closed(t: Task)
  {
    Terminal(t) || t.cancellationRequested
  }

  lemma ClosedStays(cfg: Config, t: Task, t': Task, uid: nat)
    requires Sound(cfg, t, uid) && Evolves(t, t') && Closed(t)
    ensures Closed(t') && !t.status.Executing?
  {}

  lemma ClosedNotExecuting(cfg: Config, t: Task, uid: nat)
    requires Sound(cfg, t, uid) && Closed(t)
    ensures !t.status.Executing?
  {}

  lemma StepAfterClosing(cfg: Config, w: World, s: Step, i: nat, k: nat)
    requires Inv(cfg, w) && i < |w.tasks| && Closed(w.tasks[i])
    requires |w.posts| <= k < |StepWorld(cfg, w, s).posts|
    ensures StepWorld(cfg, w, s).posts[k].caller.taskId != w.tasks[i].id
  {
    hide Sound, Script, SameUnknown;
    var script := Script(cfg, w, s.call);
    ClosedNotExecuting(cfg, w.tasks[i], w.nextUid);
    FindAt(w.tasks, i);
    ScriptDispatches(cfg, w, s.call);
    CutPosts(w, script, if s.Done? then |script| else s.n);
    assert StepWorld(cfg, w, s).posts[k] == (w.posts + Dispatches(script))[k];
  }

  /** Once a task ended or was asked to stop, no later step of any run dispatches for it. */
  lemma {:induction false} NothingAfterClosing(cfg: Config, w: World, steps: seq<Step>, i: nat, k: nat)
    requires Inv(cfg, w) && i < |w.tasks| && Closed(w.tasks[i])
    requires |w.posts| <= k < |After(cfg, w, steps).posts|
    ensures After(cfg, w, steps).posts[k].caller.taskId != w.tasks[i].id
    decreases |steps|
  {
    var w1 := StepWorld(cfg, w, steps[0]);
    StepInv(cfg, w, steps[0]);
    ClosedStays(cfg, w.tasks[i], w1.tasks[i], w.nextUid);
    if k < |w1.posts| {
      StepAfterClosing(cfg, w, steps[0], i, k);
      hide Inv, StepWorld;
      StepInv(cfg, w, steps[0]);
      RunInv(cfg, w1, steps[1..]);
    } else {
      NothingAfterClosing(cfg, w1, steps[1..], i, k);
    }
  }

  // ---- Terminal facts are final ---------------------------------------------------------------

  /** Whatever happens after a task ended: its status, its verdict and every Query and Action
      fact stay what they were. */
  lemma TerminalIsFinal(cfg: Config, steps: seq<Step>, more: seq<Step>, i: nat)
    requires i < |Reached(cfg, steps).tasks| && Terminal(Reached(cfg, steps).tasks[i])
    ensures i < |Reached(cfg, steps + more).tasks|
    ensures var t := Reached(cfg, steps).tasks[i];
            var t' := Reached(cfg, steps + more).tasks[i];
            && t'.id == t.id && t'.status == t.status && t'.verdict == t.verdict
            && |Records(t')| == |Records(t)|
            && forall k :: 0 <= k < |Records(t)| && !Records(t)[k].tool.semantics.Session? ==>
                 Records(t')[k].status == Records(t)[k].status
  {
    hide Inv, After;
    ReachedInv(cfg, steps);
    RunSplit(cfg, EMPTY, steps, more);
    RunInv(cfg, Reached(cfg, steps), more);
    assert Evolves(Reached(cfg, steps).tasks[i], Reached(cfg, steps + more).tasks[i]);
  }
}
