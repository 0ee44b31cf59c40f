/** The whole store and the Gateway's log: one non-terminal task at most, every dispatch backed
    by a committed intent, and no intent dispatched twice, after any prefix of any script. */
module WorldInvariants {
  import opened Common
  import opened AgentTask
  import opened Protocol
  import opened TaskInvariants

  /** The POST carries the identity and the arguments of a record that is already committed. */
  ghost predicate Backed(tasks: seq<Task>, p: Post)
  {
    var i := Find(tasks, p.caller.taskId);
    && i < |tasks|
    && var j := IndexOf(Records(tasks[i]), p.caller.recordId);
       && j < |Records(tasks[i])|
       && var r := Records(tasks[i])[j];
          r.caller == p.caller && r.tool.toolId == Strip(p.toolId)
          && r.tool.semantics == p.semantics && r.arguments == p.arguments
  }

  ghost predicate PostsOk(w: World)
  {
    && (forall k :: 0 <= k < |w.posts| ==> Backed(w.tasks, w.posts[k]) && w.posts[k].caller.recordId < w.nextUid)
    && (forall k, l :: 0 <= k < l < |w.posts| ==> w.posts[k].caller != w.posts[l].caller)
  }

  ghost predicate OneActive(w: World)
  {
    forall i, j :: 0 <= i < j < |w.tasks| ==> Terminal(w.tasks[i]) || Terminal(w.tasks[j])
  }

  ghost predicate Inv(cfg: Config, w: World)
  {
    && (forall i :: 0 <= i < |w.tasks| ==> Sound(cfg, w.tasks[i], w.nextUid))
    && (forall i, j :: 0 <= i < j < |w.tasks| ==> w.tasks[i].id != w.tasks[j].id)
    && OneActive(w)
    && PostsOk(w)
  }

  /** Rows are only added, rows only evolve, and the Gateway's log only grows. */
  ghost predicate Grows(w: World, w': World)
  {
    && |w.tasks| <= |w'.tasks|
    && (forall i :: 0 <= i < |w.tasks| ==> Evolves(w.tasks[i], w'.tasks[i]))
    && w.posts <= w'.posts
    && w.nextUid <= w'.nextUid
  }

  lemma EvolvesReflexive(t: Task)
    ensures Evolves(t, t)
  {}

  lemma GrowsReflexive(w: World)
    ensures Grows(w, w)
  {}

  lemma GrowsTransitive(a: World, b: World, c: World)
    requires Grows(a, b) && Grows(b, c)
    ensures Grows(a, c)
  {}

  // ---- One effect ------------------------------------------------------------------------

  /** When the coordinator may produce this effect. */
  ghost predicate EffectOk(cfg: Config, w: World, e: Effect)
  {
    match e
    case Insert(t) =>
      ActiveTask(w.tasks) == |w.tasks| && t.id == w.nextUid && Records(t) == [] && Sound(cfg, t, w.nextUid + 2)
    case Update(id, m) =>
      Find(w.tasks, id) < |w.tasks| && Permitted(cfg, w.tasks[Find(w.tasks, id)], w.nextUid, m)
    case Dispatch(p) =>
      && Backed(w.tasks, p) && p.caller.recordId < w.nextUid
      && forall k :: 0 <= k < |w.posts| ==> w.posts[k].caller != p.caller
    case _ => true
  }

  lemma {:induction false} FindAt(tasks: seq<Task>, i: nat)
    requires i < |tasks| && forall k, l :: 0 <= k < l < |tasks| ==> tasks[k].id != tasks[l].id
    ensures Find(tasks, tasks[i].id) == i
  {}

  lemma SoundMonotone(cfg: Config, t: Task, uid: nat, uid': nat)
    requires Sound(cfg, t, uid) && uid <= uid'
    ensures Sound(cfg, t, uid')
  {}

  /** A dispatch stays backed while its row evolves. */
  lemma BackedEvolves(cfg: Config, tasks: seq<Task>, tasks': seq<Task>, uid: nat, p: Post)
    requires Backed(tasks, p) && |tasks| <= |tasks'|
    requires forall i, j :: 0 <= i < j < |tasks'| ==> tasks'[i].id != tasks'[j].id
    requires forall i :: 0 <= i < |tasks'| ==> Sound(cfg, tasks'[i], uid)
    requires forall i :: 0 <= i < |tasks| ==> Evolves(tasks[i], tasks'[i])
    ensures Backed(tasks', p)
  {
    var i := Find(tasks, p.caller.taskId);
    var j := IndexOf(Records(tasks[i]), p.caller.recordId);
    assert SameRecord(Records(tasks[i])[j], Records(tasks'[i])[j]);
    FindAt(tasks', i);
    var j' := IndexOf(Records(tasks'[i]), p.caller.recordId);
    assert Sound(cfg, tasks'[i], uid);
    assert j' == j;
  }

  /** Evolution keeps the row's id and never revives a terminal row. */
  lemma EvolvesBasics(t: Task, t': Task)
    requires Evolves(t, t')
    ensures t'.id == t.id && (Terminal(t) ==> Terminal(t'))
  {}

  /** Rows written over their own later versions, or followed by a new one. */
  lemma RowsInv(cfg: Config, w: World, w': World)
    requires Inv(cfg, w) && |w.tasks| <= |w'.tasks| && w'.posts == w.posts && w.nextUid <= w'.nextUid
    requires forall i :: 0 <= i < |w'.tasks| ==> Sound(cfg, w'.tasks[i], w'.nextUid)
    requires forall i :: 0 <= i < |w.tasks| ==> Evolves(w.tasks[i], w'.tasks[i])
    requires forall i, j :: 0 <= i < j < |w'.tasks| ==> w'.tasks[i].id != w'.tasks[j].id
    requires OneActive(w')
    ensures Inv(cfg, w') && Grows(w, w')
  {
    hide Sound, Evolves;
    forall k | 0 <= k < |w'.posts| ensures Backed(w'.tasks, w'.posts[k]) {
      BackedEvolves(cfg, w.tasks, w'.tasks, w'.nextUid, w.posts[k]);
    }
  }

  lemma UpdateInv(cfg: Config, w: World, id: nat, m: Mutation)
    requires Inv(cfg, w) && EffectOk(cfg, w, Update(id, m))
    ensures Inv(cfg, Apply(w, Update(id, m))) && Grows(w, Apply(w, Update(id, m)))
  {
    hide Sound, Evolves, Mutate, Permitted;
    var i := Find(w.tasks, id);
    var w' := Apply(w, Update(id, m));
    MutateSound(cfg, w.tasks[i], w.nextUid, m);
    forall k | 0 <= k < |w'.tasks|
      ensures Sound(cfg, w'.tasks[k], w'.nextUid) && Evolves(w.tasks[k], w'.tasks[k])
      ensures w'.tasks[k].id == w.tasks[k].id && (Terminal(w.tasks[k]) ==> Terminal(w'.tasks[k]))
    {
      if k != i { SoundMonotone(cfg, w.tasks[k], w.nextUid, w'.nextUid); EvolvesReflexive(w.tasks[k]); }
      EvolvesBasics(w.tasks[k], w'.tasks[k]);
    }
    RowsInv(cfg, w, w');
  }

  lemma SoundId(cfg: Config, t: Task, uid: nat)
    requires Sound(cfg, t, uid)
    ensures t.id < uid
  {}

  lemma InsertInv(cfg: Config, w: World, t: Task)
    requires Inv(cfg, w) && EffectOk(cfg, w, Insert(t))
    ensures Inv(cfg, Apply(w, Insert(t))) && Grows(w, Apply(w, Insert(t)))
  {
    hide Sound, Evolves;
    var w' := Apply(w, Insert(t));
    forall k | 0 <= k < |w.tasks|
      ensures Sound(cfg, w'.tasks[k], w'.nextUid) && Evolves(w.tasks[k], w'.tasks[k]) && w'.tasks[k].id < w.nextUid
    {
      SoundMonotone(cfg, w.tasks[k], w.nextUid, w'.nextUid);
      SoundId(cfg, w.tasks[k], w.nextUid);
      EvolvesReflexive(w.tasks[k]);
    }
    RowsInv(cfg, w, w');
  }

  lemma QuietInv(cfg: Config, w: World, e: Effect)
    requires Inv(cfg, w) && (e.Dispatch? ==> EffectOk(cfg, w, e)) && !e.Insert? && !e.Update?
    ensures Inv(cfg, Apply(w, e)) && Grows(w, Apply(w, e))
  {
    hide Sound, Evolves, Backed;
    GrowsReflexive(w);
  }

  /** Any effect the coordinator may produce keeps the invariant. */
  lemma ApplyInv(cfg: Config, w: World, e: Effect)
    requires Inv(cfg, w) && EffectOk(cfg, w, e)
    ensures Inv(cfg, Apply(w, e)) && Grows(w, Apply(w, e))
  {
    hide *;
    match e {
      case Insert(t) => InsertInv(cfg, w, t);
      case Update(id, m) => UpdateInv(cfg, w, id, m);
      case _ => QuietInv(cfg, w, e);
    }
  }

  // ---- Sequences of effects ----------------------------------------------------------------

  ghost predicate Legal(cfg: Config, w: World, effects: seq<Effect>)
    decreases |effects|
  {
    effects == [] || (EffectOk(cfg, w, effects[0]) && Legal(cfg, Apply(w, effects[0]), effects[1..]))
  }

  /** After every prefix of a legal sequence the invariant holds. */
  lemma {:induction false} CutInv(cfg: Config, w: World, effects: seq<Effect>, n: nat)
    requires Inv(cfg, w) && Legal(cfg, w, effects)
    ensures Inv(cfg, Cut(w, effects, n)) && Grows(w, Cut(w, effects, n))
    decreases |effects|
  {
    hide Inv, EffectOk, Apply, Grows;
    if effects == [] || n == 0 {
      GrowsReflexive(w);
    } else {
      ApplyInv(cfg, w, effects[0]);
      CutInv(cfg, Apply(w, effects[0]), effects[1..], n - 1);
      GrowsTransitive(w, Apply(w, effects[0]), Cut(w, effects, n));
    }
  }

  lemma FinishOne(w: World, e: Effect)
    ensures Finish(w, [e]) == Apply(w, e)
  {
    hide Apply;
    assert [e][1..] == [];
    assert Cut(Apply(w, e), [], 0) == Apply(w, e);
  }

  lemma {:induction false} FinishConcat(w: World, a: seq<Effect>, b: seq<Effect>)
    ensures Finish(w, a + b) == Finish(Finish(w, a), b)
    decreases |a|
  {
    hide Apply;
    if a == [] {
      assert a + b == b;
    } else {
      assert (a + b)[1..] == a[1..] + b;
      FinishConcat(Apply(w, a[0]), a[1..], b);
    }
  }

  lemma {:induction false} CutConcat(w: World, a: seq<Effect>, b: seq<Effect>, n: nat)
    ensures Cut(w, a + b, n) == if n <= |a| then Cut(w, a, n) else Cut(Finish(w, a), b, n - |a|)
    decreases |a|
  {
    hide Apply;
    if a == [] {
      assert a + b == b;
    } else if n > 0 {
      assert (a + b)[1..] == a[1..] + b;
      CutConcat(Apply(w, a[0]), a[1..], b, n - 1);
    }
  }

  lemma {:induction false} LegalConcat(cfg: Config, w: World, a: seq<Effect>, b: seq<Effect>)
    requires Legal(cfg, w, a) && Legal(cfg, Finish(w, a), b)
    ensures Legal(cfg, w, a + b)
    decreases |a|
  {
    hide EffectOk, Apply;
    if a == [] {
      assert a + b == b;
    } else {
      assert (a + b)[1..] == a[1..] + b;
      LegalConcat(cfg, Apply(w, a[0]), a[1..], b);
    }
  }

  /** Effects that touch neither rows nor dispatches. */
  predicate Quiet(e: Effect) { e.Ask? || e.Track? || e.Untrack? }

  predicate AllQuiet(effects: seq<Effect>)
  {
    forall k :: 0 <= k < |effects| ==> Quiet(effects[k])
  }

  lemma {:induction false} QuietLegal(cfg: Config, w: World, effects: seq<Effect>)
    requires AllQuiet(effects)
    ensures Legal(cfg, w, effects)
    ensures Finish(w, effects).tasks == w.tasks && Finish(w, effects).posts == w.posts
    ensures Finish(w, effects).nextUid == w.nextUid
    decreases |effects|
  {
    if effects != [] { QuietLegal(cfg, Apply(w, effects[0]), effects[1..]); }
  }

  // ---- The scripts are legal -----------------------------------------------------------------

  lemma ReleaseQuiet(cfg: Config, t: Task)
    ensures AllQuiet(Release(cfg, t))
  {}

  lemma NewTaskSound(cfg: Config, w: World, description: string, mode: Mode, binding: Option<Binding>)
    ensures Sound(cfg, NewTask(w, description, mode, binding), w.nextUid + 2)
    ensures Records(NewTask(w, description, mode, binding)) == []
  {
    var t := NewTask(w, description, mode, binding);
    var none: seq<Revision> := [];
    assert t.revisions[1..] == none;
    assert Flatten(none) == [] && AllAttempts(none) == [];
    assert Records(t) == [];
  }

  lemma InsertLegal(cfg: Config, w: World, t: Task)
    requires EffectOk(cfg, w, Insert(t))
    ensures Legal(cfg, w, [Insert(t)])
  {}

  lemma CreateLegal(cfg: Config, w: World, c: Call)
    requires Inv(cfg, w) && c.Create?
    ensures Legal(cfg, w, CreateScript(cfg, w, c))
  {
    var s := CreateScript(cfg, w, c);
    hide Inv, Sound, NewTask, Strip, Legal;
    if s == [] || ActiveTask(w.tasks) < |w.tasks| {
      QuietLegal(cfg, w, s);
    } else {
      var binding := if cfg.bound then Some(c.freeze.binding) else None;
      HeldInsertLegal(cfg, w, s[..|s| - 1], c.description, c.mode, binding);
    }
  }

  /** A new row behind the hold of its binding. */
  lemma HeldInsertLegal(cfg: Config, w: World, hold: seq<Effect>, description: string, mode: Mode,
                        binding: Option<Binding>)
    requires AllQuiet(hold) && ActiveTask(w.tasks) == |w.tasks|
    ensures Legal(cfg, w, hold + [Insert(NewTask(w, description, mode, binding))])
  {
    hide Sound, NewTask, Legal, AllQuiet;
    var t := NewTask(w, description, mode, binding);
    QuietLegal(cfg, w, hold);
    NewTaskSound(cfg, w, description, mode, binding);
    NewTaskId(w, description, mode, binding);
    InsertLegal(cfg, Finish(w, hold), t);
    LegalConcat(cfg, w, hold, [Insert(t)]);
  }

  lemma NewTaskId(w: World, description: string, mode: Mode, binding: Option<Binding>)
    ensures NewTask(w, description, mode, binding).id == w.nextUid
  {}

  /** One permitted transaction followed by tracker writes. */
  lemma UpdateThenQuiet(cfg: Config, w: World, id: nat, m: Mutation, rest: seq<Effect>)
    requires EffectOk(cfg, w, Update(id, m)) && AllQuiet(rest)
    ensures Legal(cfg, w, [Update(id, m)] + rest)
  {
    var s := [Update(id, m)] + rest;
    assert s[1..] == rest;
    QuietLegal(cfg, Apply(w, s[0]), rest);
  }

  lemma BeginRevisionLegal(cfg: Config, w: World, c: Call)
    requires Inv(cfg, w) && c.BeginRevision?
    ensures Legal(cfg, w, BeginRevisionScript(cfg, w, c))
  {
    hide Mutate, Inv, Release;
    var s := BeginRevisionScript(cfg, w, c);
    if s != [] {
      var t := w.tasks[Find(w.tasks, c.taskId)];
      assert s == [s[0]] + s[1..];
      ReleaseQuiet(cfg, Mutate(t, MFailReplan));
      UpdateThenQuiet(cfg, w, t.id, s[0].m, s[1..]);
    }
  }

  lemma ObservePermitted(cfg: Config, t: Task, uid: nat, k: nat, status: ToolStatus, reply: Dict, at: int)
    requires Sound(cfg, t, uid) && k < |Records(t)| && Records(t)[k].invocationId.Some?
    requires !Records(t)[k].tool.semantics.Query? && (Terminal(t) ==> Records(t)[k].tool.semantics.Session?)
    ensures IndexOf(Records(t), Records(t)[k].id) == k
    ensures Permitted(cfg, t, uid, MObserve(Records(t)[k].id, status, reply, at))
  {}

  /** An observation commits the reported status of the record it names, then may let go of it. */
  lemma ObserveStep(cfg: Config, w: World, taskId: nat, invocationId: string, semantics: Semantics,
                    response: Dict, dropped: bool, at: int)
    requires Inv(cfg, w) && !semantics.Query?
    ensures var s := ObserveScript(cfg, w, taskId, invocationId, semantics, response, dropped, at);
            s != [] ==>
              && Find(w.tasks, taskId) < |w.tasks|
              && var t := w.tasks[Find(w.tasks, taskId)];
                 var k := OwnedIndex(Records(t), invocationId, semantics);
                 && k < |Records(t)| && IndexOf(Records(t), Records(t)[k].id) == k
                 && s[0] == Update(taskId, MObserve(Records(t)[k].id, StatusOf(response, Records(t)[k].status),
                                                    response, at))
                 && EffectOk(cfg, w, s[0]) && AllQuiet(s[1..])
  {
    var s := ObserveScript(cfg, w, taskId, invocationId, semantics, response, dropped, at);
    if s != [] {
      var t := w.tasks[Find(w.tasks, taskId)];
      var k := OwnedIndex(Records(t), invocationId, semantics);
      assert Sound(cfg, t, w.nextUid);
      hide Inv, Sound, Permitted, StatusOf, Records;
      ObservePermitted(cfg, t, w.nextUid, k, StatusOf(response, Records(t)[k].status), response, at);
    }
  }

  lemma ObserveLegal(cfg: Config, w: World, taskId: nat, invocationId: string, semantics: Semantics,
                     response: Dict, dropped: bool, at: int)
    requires Inv(cfg, w) && !semantics.Query?
    ensures Legal(cfg, w, ObserveScript(cfg, w, taskId, invocationId, semantics, response, dropped, at))
  {
    hide Inv, EffectOk, StatusOf, OwnedIndex, Records, ObserveScript;
    var s := ObserveScript(cfg, w, taskId, invocationId, semantics, response, dropped, at);
    if s != [] {
      ObserveStep(cfg, w, taskId, invocationId, semantics, response, dropped, at);
      assert s == [s[0]] + s[1..];
      UpdateThenQuiet(cfg, w, taskId, s[0].m, s[1..]);
    }
  }

  lemma RecordAt(cfg: Config, t: Task, uid: nat, i: nat)
    requires Sound(cfg, t, uid) && i < |Records(t)|
    ensures IndexOf(Records(t), Records(t)[i].id) == i
  {}

  lemma RecordCancelLegal(cfg: Config, w: World, c: Call)
    requires Inv(cfg, w) && c.RecordCancel?
    ensures Legal(cfg, w, RecordCancelScript(w, c))
  {
    hide Mutate, Apply;
    var s := RecordCancelScript(w, c);
    if s != [] {
      var t := w.tasks[Find(w.tasks, c.taskId)];
      RecordAt(cfg, t, w.nextUid, OwnedIndex(Records(t), c.invocationId, Action));
      hide Inv;
      UpdateThenQuiet(cfg, w, t.id, s[0].m, []);
      assert s + [] == s;
    }
  }

  lemma StopSessionLegal(cfg: Config, w: World, c: Call)
    requires Inv(cfg, w) && c.StopSession?
    ensures Legal(cfg, w, StopSessionScript(w, c))
  {
    hide Mutate;
    var s := StopSessionScript(w, c);
    if s != [] {
      var t := w.tasks[Find(w.tasks, c.taskId)];
      RecordAt(cfg, t, w.nextUid, OwnedIndex(Records(t), c.invocationId, Session));
      hide Inv;
      QuietLegal(cfg, w, [s[0]]);
      if c.answer.Some? {
        var u := s[1];
        UpdateThenQuiet(cfg, Finish(w, [s[0]]), t.id, u.m, []);
        assert [u] + [] == [u];
        LegalConcat(cfg, w, [s[0]], [u]);
      }
      assert s == [s[0]] + s[1..];
    }
  }

  lemma {:induction false} CancelRequestsQuiet(records: seq<Exec>, answers: map<string, Dict>)
    ensures AllQuiet(CancelRequests(records))
    ensures CancelResponses(records, answers) != [] ==>
              exists i :: 0 <= i < |records| && Owned(records[i])
  {
    if records != [] {
      CancelRequestsQuiet(records[1..], answers);
      if !Cancellable(records[0]) && CancelResponses(records[1..], answers) != [] {
        var i :| 0 <= i < |records[1..]| && Owned(records[1..][i]);
        assert Owned(records[i + 1]);
      }
    }
  }

  lemma CancelPermitted(cfg: Config, w: World, c: Call)
    requires c.CancelTask? && Find(w.tasks, c.taskId) < |w.tasks|
    requires !Terminal(w.tasks[Find(w.tasks, c.taskId)])
    ensures var t := w.tasks[Find(w.tasks, c.taskId)];
            Permitted(cfg, t, w.nextUid, CancelMutation(t, c.answers, c.at))
  {
    hide Mutate;
    CancelRequestsQuiet(Records(w.tasks[Find(w.tasks, c.taskId)]), c.answers);
  }

  lemma CancelLegal(cfg: Config, w: World, c: Call)
    requires Inv(cfg, w) && c.CancelTask?
    ensures Legal(cfg, w, CancelScript(cfg, w, c))
  {
    hide Inv, Mutate, Permitted, Release, CancelMutation, Apply;
    var s := CancelScript(cfg, w, c);
    if s != [] {
      var t := w.tasks[Find(w.tasks, c.taskId)];
      var requests := CancelRequests(Records(t));
      var m := CancelMutation(t, c.answers, c.at);
      var rest := [Update(t.id, m)] + Release(cfg, Mutate(t, m));
      CancelRequestsQuiet(Records(t), c.answers);
      QuietLegal(cfg, w, requests);
      CancelPermitted(cfg, w, c);
      ReleaseQuiet(cfg, Mutate(t, m));
      UpdateThenQuiet(cfg, Finish(w, requests), t.id, m, Release(cfg, Mutate(t, m)));
      LegalConcat(cfg, w, requests, rest);
      assert s == requests + rest;
    }
  }

  /** Writing a row back under its own id leaves it where it is. */
  lemma FindKept(rows: seq<Task>, id: nat, t: Task)
    requires Find(rows, id) < |rows| && t.id == id
    ensures Find(rows[Find(rows, id) := t], id) == Find(rows, id)
  {
    var i := Find(rows, id);
    var rows' := rows[i := t];
    assert rows'[i].id == id && forall k :: 0 <= k < i ==> rows'[k] == rows[k];
    assert Find(rows', id) <= i;
  }

  /** Reading a row back after it was written. */
  lemma FindUpdated(w: World, id: nat, m: Mutation)
    requires Find(w.tasks, id) < |w.tasks|
    requires Mutate(w.tasks[Find(w.tasks, id)], m).id == id
    ensures var w' := Apply(w, Update(id, m));
            Find(w'.tasks, id) == Find(w.tasks, id)
            && w'.tasks[Find(w.tasks, id)] == Mutate(w.tasks[Find(w.tasks, id)], m)
  {
    hide Mutate;
    FindKept(w.tasks, id, Mutate(w.tasks[Find(w.tasks, id)], m));
  }

  lemma ClosingPermitted(cfg: Config, t: Task, uid: nat, verifier: VerifierReply, now: int)
    requires !Terminal(t) && Records(t) != []
    ensures Permitted(cfg, t, uid, Closing(cfg, t, verifier, now))
  {}

  lemma FinalizeLegal(cfg: Config, w: World, c: Call)
    requires Inv(cfg, w) && c.Finalize?
    ensures Legal(cfg, w, FinalizeScript(cfg, w, c))
  {
    hide Inv, Permitted, Closing, Release, OwnedPending;
    var s := FinalizeScript(cfg, w, c);
    if s != [] {
      var t := w.tasks[Find(w.tasks, c.taskId)];
      var after := MAfter(c.after, c.bundle);
      var t1 := Mutate(t, after);
      var m := Closing(cfg, t1, c.verifier, c.now);
      assert Records(t1) == Records(t);
      FindUpdated(w, t.id, after);
      var w1 := Apply(w, Update(t.id, after));
      ClosingPermitted(cfg, t1, w1.nextUid, c.verifier, c.now);
      assert EffectOk(cfg, w, s[0]) by { AfterPermitted(cfg, t, w.nextUid, after); }
      hide Mutate;
      ReleaseQuiet(cfg, Mutate(t1, m));
      UpdateThenQuiet(cfg, w1, t.id, m, Release(cfg, Mutate(t1, m)));
      assert s[1..] == [Update(t.id, m)] + Release(cfg, Mutate(t1, m));
    }
  }

  lemma AfterPermitted(cfg: Config, t: Task, uid: nat, m: Mutation)
    requires m.MAfter?
    ensures Permitted(cfg, t, uid, m)
  {}

  // ---- Dispatching -----------------------------------------------------------------------

  lemma IntentFresh(cfg: Config, w: World, t: Task, toolId: string, semantics: Semantics, live: bool,
                    ownership: Ownership, arguments: string, at: int)
    requires AdmittedTool(cfg, t, toolId, semantics, live).Some?
    ensures t.status.Executing?
    ensures FreshIntent(t, w.nextUid,
              Intent(t, w.nextUid, toolId, semantics, AdmittedTool(cfg, t, toolId, semantics, live).value,
                     ownership, arguments, at))
  {
    StripIdempotent(toolId);
    if t.binding.Some? {
      var tools := t.binding.value.tools;
      var k := BoundTool(tools, toolId);
      assert Strip(tools[k].toolId) == Strip(toolId);
    }
  }

  lemma AppendRow(cfg: Config, t: Task, uid: nat, rec: Exec)
    requires Sound(cfg, t, uid) && Permitted(cfg, t, uid, MAppend(rec))
    ensures var t' := Mutate(t, MAppend(rec));
            && t'.id == t.id && !Terminal(t') && Records(t') == Records(t) + [rec]
            && IndexOf(Records(t'), rec.id) == |Records(t)|
  {
    AppendSound(cfg, t, uid, rec);
    ActiveIsLast(t);
    RecordAt(cfg, Mutate(t, MAppend(rec)), uid + 1, |Records(t)|);
    hide Sound;
  }

  /** After the intent is committed, its record is the last one and is found by its id. */
  lemma Appended(cfg: Config, w: World, id: nat, rec: Exec)
    requires Inv(cfg, w) && EffectOk(cfg, w, Update(id, MAppend(rec)))
    ensures var w1 := Apply(w, Update(id, MAppend(rec)));
            var i := Find(w.tasks, id);
            && Inv(cfg, w1) && Find(w1.tasks, id) == i && w1.posts == w.posts && w1.nextUid == w.nextUid + 1
            && w1.tasks[i] == Mutate(w.tasks[i], MAppend(rec))
            && !Terminal(w1.tasks[i])
            && Records(w1.tasks[i]) == Records(w.tasks[i]) + [rec]
            && IndexOf(Records(w1.tasks[i]), rec.id) == |Records(w.tasks[i])|
  {
    assert Sound(cfg, w.tasks[Find(w.tasks, id)], w.nextUid);
    hide Inv, Sound, Mutate, Permitted, Records;
    AppendRow(cfg, w.tasks[Find(w.tasks, id)], w.nextUid, rec);
    UpdateInv(cfg, w, id, MAppend(rec));
    FindUpdated(w, id, MAppend(rec));
  }

  /** An open record whose outcome is written stays findable, and its task stays open. */
  lemma OutcomeWritten(cfg: Config, w: World, id: nat, m: Mutation)
    requires Inv(cfg, w) && EffectOk(cfg, w, Update(id, m)) && (m.MFinish? || m.MAccept?)
    ensures var w1 := Apply(w, Update(id, m));
            var i := Find(w.tasks, id);
            && Inv(cfg, w1) && Find(w1.tasks, id) == i && !Terminal(w1.tasks[i])
            && IndexOf(Records(w1.tasks[i]), m.id) == IndexOf(Records(w.tasks[i]), m.id)
            && |Records(w1.tasks[i])| == |Records(w.tasks[i])|
  {
    var i := Find(w.tasks, id);
    var t := w.tasks[i];
    UpdateInv(cfg, w, id, m);
    FindUpdated(w, id, m);
    var k := IndexOf(Records(t), m.id);
    PutRecords(t, k, Rewritten(Records(t)[k], m));
    RecordAt(cfg, Mutate(t, m), Apply(w, Update(id, m)).nextUid, k);
  }

  /** Sending the request itself changes nothing but the Gateway's log. */
  lemma SentLegal(cfg: Config, w: World, reply: Reply, p: Post)
    requires Inv(cfg, w) && EffectOk(cfg, w, Dispatch(p))
    ensures Legal(cfg, w, Sent(reply, p))
    ensures var w1 := Finish(w, Sent(reply, p));
            Inv(cfg, w1) && w1.tasks == w.tasks && w1.nextUid == w.nextUid
            && w1.posts == w.posts + (if Sent(reply, p) == [] then [] else [p])
  {
    hide Inv, Backed;
    var s := Sent(reply, p);
    if s != [] {
      FinishOne(w, Dispatch(p));
      assert s[1..] == [];
      assert Legal(cfg, Apply(w, s[0]), s[1..]);
    }
    assert Legal(cfg, w, s);
    CutInv(cfg, w, s, |s|);
  }

  /** The outcome of an exchange, as the closure that records it. */
  function Outcome(rec: Exec, reply: Reply, at: int): Mutation
  {
    var inv := Identity(reply, "invocation_id");
    var att := Identity(reply, "attempt_id");
    if Admitted(reply, rec.tool.semantics) then MAccept(rec.id, inv.value, att, reply.response, at)
    else MFinish(rec.id, Unknown, inv, att, None, at)
  }

  function Tracking(cfg: Config, taskId: nat, rec: Exec, reply: Reply, trackedOk: bool, at: int): seq<Effect>
  {
    var inv := Identity(reply, "invocation_id");
    var response := if Admitted(reply, rec.tool.semantics) then reply.response else FAILURE;
    if inv.None? || !cfg.tracked then []
    else if trackedOk then [Track(TrackerOf(rec.tool.semantics), inv.value)]
    else [Update(taskId, MRespond(rec.id, Warned(response), at))]
  }

  lemma RemoteParts(cfg: Config, id: nat, rec: Exec, toolId: string, reply: Reply, trackedOk: bool, at: int)
    ensures RemoteScript(cfg, id, rec, toolId, reply, trackedOk, at)
            == Sent(reply, Post(rec.caller, toolId, rec.arguments, rec.tool.semantics))
               + ([Update(id, Outcome(rec, reply, at))] + Tracking(cfg, id, rec, reply, trackedOk, at))
  {}

  /** The outcome of an undispatched or just dispatched intent may be recorded. */
  lemma OutcomePermitted(cfg: Config, w: World, id: nat, rec: Exec, toolId: string, reply: Reply, at: int)
    requires Undispatched(w, id, rec, toolId)
    ensures EffectOk(cfg, w, Dispatch(Post(rec.caller, toolId, rec.arguments, rec.tool.semantics)))
    ensures IndexOf(Records(w.tasks[Find(w.tasks, id)]), rec.id) < |Records(w.tasks[Find(w.tasks, id)])|
    ensures Permitted(cfg, w.tasks[Find(w.tasks, id)], w.nextUid, Outcome(rec, reply, at))
  {}

  lemma TrackingLegal(cfg: Config, w: World, id: nat, rec: Exec, reply: Reply, trackedOk: bool, at: int)
    requires Find(w.tasks, id) < |w.tasks|
    requires IndexOf(Records(w.tasks[Find(w.tasks, id)]), rec.id) < |Records(w.tasks[Find(w.tasks, id)])|
    ensures Legal(cfg, w, Tracking(cfg, id, rec, reply, trackedOk, at))
  {
    var s := Tracking(cfg, id, rec, reply, trackedOk, at);
    if s != [] {
      assert s[1..] == [] && EffectOk(cfg, w, s[0]);
      assert Legal(cfg, Apply(w, s[0]), s[1..]);
    }
  }

  /** The exchange that follows a committed, still undispatched intent. */
  lemma RemoteLegal(cfg: Config, w: World, id: nat, rec: Exec, toolId: string, reply: Reply, trackedOk: bool, at: int)
    requires Inv(cfg, w) && Undispatched(w, id, rec, toolId)
    ensures Legal(cfg, w, RemoteScript(cfg, id, rec, toolId, reply, trackedOk, at))
  {
    assert Find(w.tasks, id) < |w.tasks|;
    assert Outcome(rec, reply, at).id == rec.id && Rewrites(Outcome(rec, reply, at));
    assert !Outcome(rec, reply, at).MObserve? && !Outcome(rec, reply, at).MRespond?;
    hide Inv, Permitted, Mutate, Outcome, Tracking, Undispatched, Apply, IndexOf;
    var post := Post(rec.caller, toolId, rec.arguments, rec.tool.semantics);
    var sent := Sent(reply, post);
    var m := Outcome(rec, reply, at);
    var track := Tracking(cfg, id, rec, reply, trackedOk, at);
    var rest := [Update(id, m)] + track;
    RemoteParts(cfg, id, rec, toolId, reply, trackedOk, at);
    OutcomePermitted(cfg, w, id, rec, toolId, reply, at);
    SentLegal(cfg, w, reply, post);
    var w1 := Finish(w, sent);
    OutcomeWritten(cfg, w1, id, m);
    TrackingLegal(cfg, Apply(w1, Update(id, m)), id, rec, reply, trackedOk, at);
    assert rest[1..] == track;
    LegalConcat(cfg, w, sent, rest);
  }

  ghost predicate Undispatched(w: World, id: nat, rec: Exec, toolId: string)
  {
    var i := Find(w.tasks, id);
    && i < |w.tasks| && !Terminal(w.tasks[i]) && rec.caller.taskId == id && rec.caller.recordId == rec.id
    && rec.id < w.nextUid && rec.tool.toolId == Strip(toolId) && rec.status.Pending? && rec.invocationId.None?
    && var j := IndexOf(Records(w.tasks[i]), rec.id);
       && j < |Records(w.tasks[i])| && Records(w.tasks[i])[j] == rec
       && forall k :: 0 <= k < |w.posts| ==> w.posts[k].caller != rec.caller
  }

  /** A fresh intent has never been dispatched. */
  lemma IntentUndispatched(cfg: Config, w: World, id: nat, rec: Exec, toolId: string)
    requires Inv(cfg, w) && EffectOk(cfg, w, Update(id, MAppend(rec))) && rec.tool.toolId == Strip(toolId)
    ensures var w1 := Apply(w, Update(id, MAppend(rec)));
            Inv(cfg, w1) && Undispatched(w1, id, rec, toolId)
  {
    Appended(cfg, w, id, rec);
    assert FreshIntent(w.tasks[Find(w.tasks, id)], w.nextUid, rec);
    assert forall k :: 0 <= k < |w.posts| ==> w.posts[k].caller != rec.caller by { hide Sound, OneActive, Backed; }
    hide Inv, Mutate, Permitted, BoundRecord;
  }

  function QueryOutcome(rec: Exec, reply: Reply, at: int): Mutation
  {
    match reply
    case Answered(r) => MFinish(rec.id, ToolStatus.Succeeded, None, None, Some(r), at)
    case Raised(_, _) => MFinish(rec.id, Unknown, None, None, None, at)
  }

  lemma QueryParts(cfg: Config, w: World, c: Call)
    requires c.InvokeQuery? && QueryScript(cfg, w, c) != []
    ensures var t := w.tasks[Find(w.tasks, c.taskId)];
            var sha := AdmittedTool(cfg, t, c.toolId, Query, c.live);
            && Find(w.tasks, c.taskId) < |w.tasks| && sha.Some?
            && var rec := Intent(t, w.nextUid, c.toolId, Query, sha.value, TaskOwned, c.arguments, c.at);
               QueryScript(cfg, w, c)
               == [Update(t.id, MAppend(rec))]
                  + (Sent(c.reply, Post(rec.caller, c.toolId, c.arguments, Query))
                     + [Update(t.id, QueryOutcome(rec, c.reply, c.at))])
  {}

  /** The exchange of a Query, up to its recorded result. */
  lemma ExchangeLegal(cfg: Config, w: World, id: nat, rec: Exec, toolId: string, reply: Reply, at: int)
    requires Inv(cfg, w) && Undispatched(w, id, rec, toolId) && rec.tool.semantics.Query?
    ensures Legal(cfg, w, Sent(reply, Post(rec.caller, toolId, rec.arguments, rec.tool.semantics))
                          + [Update(id, QueryOutcome(rec, reply, at))])
  {
    var post := Post(rec.caller, toolId, rec.arguments, rec.tool.semantics);
    var last := Update(id, QueryOutcome(rec, reply, at));
    assert EffectOk(cfg, w, Dispatch(post));
    assert EffectOk(cfg, w, last);
    hide Inv, Permitted, Mutate, Undispatched, Apply;
    SentLegal(cfg, w, reply, post);
    var w1 := Finish(w, Sent(reply, post));
    UpdateThenQuiet(cfg, w1, id, last.m, []);
    assert [last] + [] == [last];
    LegalConcat(cfg, w, Sent(reply, post), [last]);
  }

  lemma QueryLegal(cfg: Config, w: World, c: Call)
    requires Inv(cfg, w) && c.InvokeQuery?
    ensures Legal(cfg, w, QueryScript(cfg, w, c))
  {
    hide Inv, Mutate, Undispatched, Apply, QueryScript, QueryOutcome, Permitted, Sent;
    var s := QueryScript(cfg, w, c);
    if s != [] {
      QueryParts(cfg, w, c);
      var t := w.tasks[Find(w.tasks, c.taskId)];
      var rec := s[0].m.rec;
      IntentPermitted(cfg, w, t, c.toolId, Query, c.live, TaskOwned, c.arguments, c.at);
      IntentUndispatched(cfg, w, t.id, rec, c.toolId);
      ExchangeLegal(cfg, Apply(w, s[0]), t.id, rec, c.toolId, c.reply, c.at);
      assert s[1..] == Sent(c.reply, Post(rec.caller, c.toolId, c.arguments, Query))
                       + [Update(t.id, QueryOutcome(rec, c.reply, c.at))];
    }
  }

  lemma IntentPermitted(cfg: Config, w: World, t: Task, toolId: string, semantics: Semantics, live: bool,
                        ownership: Ownership, arguments: string, at: int)
    requires AdmittedTool(cfg, t, toolId, semantics, live).Some?
    ensures Permitted(cfg, t, w.nextUid, MAppend(
              Intent(t, w.nextUid, toolId, semantics, AdmittedTool(cfg, t, toolId, semantics, live).value,
                     ownership, arguments, at)))
  {
    IntentFresh(cfg, w, t, toolId, semantics, live, ownership, arguments, at);
  }

  /** A committed intent and the exchange that follows it. */
  lemma StartLegal(cfg: Config, w: World, id: nat, rec: Exec, toolId: string, reply: Reply, trackedOk: bool, at: int)
    requires Inv(cfg, w) && EffectOk(cfg, w, Update(id, MAppend(rec))) && rec.tool.toolId == Strip(toolId)
    ensures Legal(cfg, w, [Update(id, MAppend(rec))] + RemoteScript(cfg, id, rec, toolId, reply, trackedOk, at))
  {
    hide Inv, Mutate, Undispatched, Apply, RemoteScript, Permitted;
    var s := [Update(id, MAppend(rec))] + RemoteScript(cfg, id, rec, toolId, reply, trackedOk, at);
    IntentUndispatched(cfg, w, id, rec, toolId);
    RemoteLegal(cfg, Apply(w, s[0]), id, rec, toolId, reply, trackedOk, at);
    assert s[1..] == RemoteScript(cfg, id, rec, toolId, reply, trackedOk, at);
  }

  lemma SessionLegal(cfg: Config, w: World, c: Call)
    requires Inv(cfg, w) && c.StartSession?
    ensures Legal(cfg, w, SessionScript(cfg, w, c))
  {
    hide Inv, Mutate, Undispatched, Apply, RemoteScript, Permitted;
    var s := SessionScript(cfg, w, c);
    if s != [] {
      var t := w.tasks[Find(w.tasks, c.taskId)];
      IntentPermitted(cfg, w, t, c.toolId, Session, c.live, c.ownership, c.arguments, c.at);
      StartLegal(cfg, w, t.id, s[0].m.rec, c.toolId, c.reply, c.trackedOk, c.at);
    }
  }

  /** The Before evidence is captured ahead of the intent of a first Action. */
  function Before(t: Task, c: Call): seq<Effect>
    requires c.StartAction?
  {
    if t.beforeRef.None? then [Update(t.id, MBefore(c.before))] else []
  }

  lemma BeforeCaptured(cfg: Config, w: World, c: Call)
    requires Inv(cfg, w) && c.StartAction? && Find(w.tasks, c.taskId) < |w.tasks|
    ensures var i := Find(w.tasks, c.taskId);
            var t := w.tasks[i];
            var w0 := Finish(w, Before(t, c));
            && Legal(cfg, w, Before(t, c)) && Inv(cfg, w0)
            && |w0.tasks| == |w.tasks| && Find(w0.tasks, c.taskId) == i
            && w0.nextUid == w.nextUid && w0.posts == w.posts
            && w0.tasks[i] == t.(beforeRef := w0.tasks[i].beforeRef)
  {
    hide Inv;
    var t := w.tasks[Find(w.tasks, c.taskId)];
    var s := Before(t, c);
    if s != [] {
      UpdateThenQuiet(cfg, w, t.id, MBefore(c.before), []);
      assert s + [] == s;
      FindUpdated(w, t.id, MBefore(c.before));
      FinishOne(w, s[0]);
    }
    CutInv(cfg, w, s, |s|);
  }

  lemma ActionLegal(cfg: Config, w: World, c: Call)
    requires Inv(cfg, w) && c.StartAction?
    ensures Legal(cfg, w, ActionScript(cfg, w, c))
  {
    hide Inv, Mutate, Undispatched, Apply, RemoteScript, Legal;
    var s := ActionScript(cfg, w, c);
    if s == [] {
      assert Legal(cfg, w, s) by { QuietLegal(cfg, w, s); }
    } else {
      var i := Find(w.tasks, c.taskId);
      var t := w.tasks[i];
      BeforeCaptured(cfg, w, c);
      if PathSafe(c.toolId) {
        var w0 := Finish(w, Before(t, c));
        var t0 := w0.tasks[i];
        var rec := s[|Before(t, c)|].m.rec;
        IntentFresh(cfg, w, t, c.toolId, Action, c.live, TaskOwned, c.arguments, c.at);
        assert BoundRecord(t0, rec);
        assert EffectOk(cfg, w0, Update(t.id, MAppend(rec)));
        StartLegal(cfg, w0, t.id, rec, c.toolId, c.reply, c.trackedOk, c.at);
        var tail := [Update(t.id, MAppend(rec))] + RemoteScript(cfg, t.id, rec, c.toolId, c.reply, c.trackedOk, c.at);
        LegalConcat(cfg, w, Before(t, c), tail);
        assert s == Before(t, c) + tail;
      }
    }
  }

  // ---- Recovery --------------------------------------------------------------------------

  /** The row under recovery still holds, from position `base` on, the records yet to be seen. */
  ghost predicate Recovering(w: World, taskId: nat, base: nat, records: seq<Exec>)
  {
    var i := Find(w.tasks, taskId);
    && i < |w.tasks| && !Terminal(w.tasks[i])
    && base <= |Records(w.tasks[i])| && Records(w.tasks[i])[base..] == records
  }

  lemma RewriteRecords(cfg: Config, t: Task, uid: nat, m: Mutation)
    requires Sound(cfg, t, uid) && Rewrites(m) && Permitted(cfg, t, uid, m)
    ensures var k := IndexOf(Records(t), m.id);
            && k < |Records(t)| && Records(Mutate(t, m)) == Records(t)[k := Rewritten(Records(t)[k], m)]
            && Mutate(t, m).id == t.id && Mutate(t, m).status == t.status
  {
    var k := IndexOf(Records(t), m.id);
    PutRecords(t, k, Rewritten(Records(t)[k], m));
    RewritePuts(t, m);
  }

  lemma TailKept(a: seq<Exec>, k: nat, r: Exec, base: nat)
    requires k < |a| && k <= base < |a|
    ensures a[k := r][base + 1..] == a[base..][1..]
  {}

  /** A rewritten row is found where it was, open as it was, with one record rewritten. */
  lemma RewrittenRow(cfg: Config, w: World, id: nat, m: Mutation)
    requires Inv(cfg, w) && EffectOk(cfg, w, Update(id, m)) && Rewrites(m)
    ensures var i := Find(w.tasks, id);
            var w' := Apply(w, Update(id, m));
            var k := IndexOf(Records(w.tasks[i]), m.id);
            && Inv(cfg, w') && Find(w'.tasks, id) == i && i < |w'.tasks|
            && (Terminal(w'.tasks[i]) <==> Terminal(w.tasks[i]))
            && k < |Records(w.tasks[i])|
            && Records(w'.tasks[i]) == Records(w.tasks[i])[k := Rewritten(Records(w.tasks[i])[k], m)]
  {
    var i := Find(w.tasks, id);
    assert Sound(cfg, w.tasks[i], w.nextUid);
    hide Sound, Permitted, Mutate, Rewritten, Inv, IndexOf, Records, Rewrites;
    RewriteRecords(cfg, w.tasks[i], w.nextUid, m);
    UpdateInv(cfg, w, id, m);
    FindUpdated(w, id, m);
  }

  /** Rewriting a record at or before the current one leaves the records still to come alone. */
  lemma RewriteKeepsTail(cfg: Config, w: World, taskId: nat, base: nat, records: seq<Exec>, m: Mutation)
    requires Inv(cfg, w) && Recovering(w, taskId, base, records) && records != [] && Rewrites(m)
    requires EffectOk(cfg, w, Update(taskId, m))
    requires IndexOf(Records(w.tasks[Find(w.tasks, taskId)]), m.id) <= base
    ensures Inv(cfg, Apply(w, Update(taskId, m)))
    ensures Recovering(Apply(w, Update(taskId, m)), taskId, base + 1, records[1..])
  {
    hide Permitted, Mutate, Rewritten, Inv, IndexOf, Records, EffectOk, Apply, Terminal;
    var t := w.tasks[Find(w.tasks, taskId)];
    var k := IndexOf(Records(t), m.id);
    RewrittenRow(cfg, w, taskId, m);
    TailKept(Records(t), k, Rewritten(Records(t)[k], m), base);
  }

  /** The record at `base` is the one recovery is about to repair. */
  lemma CurrentRecord(cfg: Config, w: World, taskId: nat, base: nat, records: seq<Exec>)
    requires Inv(cfg, w) && Recovering(w, taskId, base, records) && records != []
    ensures var t := w.tasks[Find(w.tasks, taskId)];
            && base < |Records(t)| && Records(t)[base] == records[0]
            && IndexOf(Records(t), records[0].id) == base
            && Recovering(w, taskId, base + 1, records[1..])
            && forall inv, k :: records[0].invocationId == Some(inv) && records[0].tool.semantics == k ==>
                 OwnedIndex(Records(t), inv, k) <= base
  {
    var t := w.tasks[Find(w.tasks, taskId)];
    assert Records(t)[base] == records[0];
    RecordAt(cfg, t, w.nextUid, base);
    assert records[1..] == Records(t)[base + 1..];
  }

  /** Recording that the outcome of an open record is not known. */
  lemma RecoverUnknown(cfg: Config, w: World, taskId: nat, base: nat, records: seq<Exec>, m: Mutation)
    requires Inv(cfg, w) && Recovering(w, taskId, base, records) && records != []
    requires m.MFinish? && m.status.Unknown? && m.id == records[0].id && !ToolTerminal(records[0].status)
    requires m.invocationId == records[0].invocationId
    ensures Legal(cfg, w, [Update(taskId, m)])
    ensures var w' := Finish(w, [Update(taskId, m)]);
            Inv(cfg, w') && Recovering(w', taskId, base + 1, records[1..])
  {
    CurrentRecord(cfg, w, taskId, base, records);
    assert EffectOk(cfg, w, Update(taskId, m));
    hide Inv, Permitted;
    RewriteKeepsTail(cfg, w, taskId, base, records, m);
    UpdateThenQuiet(cfg, w, taskId, m, []);
    assert [Update(taskId, m)] + [] == [Update(taskId, m)];
    FinishOne(w, Update(taskId, m));
  }

  /** What an observation of the current record commits. */
  lemma ObserveShape(cfg: Config, w: World, taskId: nat, base: nat, records: seq<Exec>,
                     response: Dict, dropped: bool, at: int)
    requires Inv(cfg, w) && Recovering(w, taskId, base, records) && records != []
    requires records[0].invocationId.Some? && !records[0].tool.semantics.Query?
    ensures var s := ObserveScript(cfg, w, taskId, records[0].invocationId.value, records[0].tool.semantics,
                                   response, dropped, at);
            && s != [] && s[0].Update? && s[0].taskId == taskId && Rewrites(s[0].m)
            && EffectOk(cfg, w, s[0]) && AllQuiet(s[1..])
            && IndexOf(Records(w.tasks[Find(w.tasks, taskId)]), s[0].m.id) <= base
  {
    CurrentRecord(cfg, w, taskId, base, records);
    ObserveStep(cfg, w, taskId, records[0].invocationId.value, records[0].tool.semantics, response, dropped, at);
    hide Inv, Mutate, StatusOf, EffectOk, Records;
  }

  lemma RecoverObserved(cfg: Config, w: World, taskId: nat, base: nat, records: seq<Exec>,
                        response: Dict, dropped: bool, at: int)
    requires Inv(cfg, w) && Recovering(w, taskId, base, records) && records != []
    requires records[0].invocationId.Some? && !records[0].tool.semantics.Query?
    ensures var s := ObserveScript(cfg, w, taskId, records[0].invocationId.value, records[0].tool.semantics,
                                   response, dropped, at);
            && Legal(cfg, w, s) && Inv(cfg, Finish(w, s))
            && Recovering(Finish(w, s), taskId, base + 1, records[1..])
  {
    hide Inv, EffectOk, Apply, ObserveScript, Rewrites, IndexOf;
    var s := ObserveScript(cfg, w, taskId, records[0].invocationId.value, records[0].tool.semantics,
                           response, dropped, at);
    ObserveShape(cfg, w, taskId, base, records, response, dropped, at);
    RewriteKeepsTail(cfg, w, taskId, base, records, s[0].m);
    QuietLegal(cfg, Apply(w, s[0]), s[1..]);
    assert Legal(cfg, w, s);
    CutInv(cfg, w, s, |s|);
    assert Finish(w, s) == Finish(Apply(w, s[0]), s[1..]);
  }

  lemma RecoverOneLegal(cfg: Config, w: World, taskId: nat, base: nat, records: seq<Exec>, answer: Recovered, at: int)
    requires Inv(cfg, w) && Recovering(w, taskId, base, records) && records != []
    ensures var s := RecoverOne(cfg, w, taskId, records[0], answer, at);
            && Legal(cfg, w, s) && Inv(cfg, Finish(w, s))
            && Recovering(Finish(w, s), taskId, base + 1, records[1..])
  {
    hide Inv, ObserveScript, Recovering;
    var r := records[0];
    var s := RecoverOne(cfg, w, taskId, r, answer, at);
    CurrentRecord(cfg, w, taskId, base, records);
    if s == [] {
    } else if r.invocationId.None? {
      RecoverUnknown(cfg, w, taskId, base, records, s[0].m);
    } else {
      var track := if cfg.tracked then [Track(TrackerOf(r.tool.semantics), r.invocationId.value)] else [];
      var rest := s[|track|..];
      assert s == track + rest;
      QuietLegal(cfg, w, track);
      CutInv(cfg, w, track, |track|);
      var w1 := Finish(w, track);
      TrackKeepsObservation(cfg, w, w1, taskId, base, records);
      if answer.StatusAnswered? {
        ObserveScriptRows(cfg, w, w1, taskId, r.invocationId.value, r.tool.semantics, answer.response, answer.dropped, at);
        RecoverObserved(cfg, w1, taskId, base, records, answer.response, answer.dropped, at);
      } else {
        RecoverUnknown(cfg, w1, taskId, base, records, rest[0].m);
      }
      LegalConcat(cfg, w, track, rest);
      FinishConcat(w, track, rest);
    }
  }

  lemma TrackKeepsObservation(cfg: Config, w: World, w1: World, taskId: nat, base: nat, records: seq<Exec>)
    requires w1.tasks == w.tasks && Recovering(w, taskId, base, records)
    ensures Recovering(w1, taskId, base, records)
  {}

  /** An observation depends on the rows alone. */
  lemma ObserveScriptRows(cfg: Config, w: World, w1: World, taskId: nat, invocationId: string, semantics: Semantics,
                          response: Dict, dropped: bool, at: int)
    requires w1.tasks == w.tasks
    ensures ObserveScript(cfg, w1, taskId, invocationId, semantics, response, dropped, at)
            == ObserveScript(cfg, w, taskId, invocationId, semantics, response, dropped, at)
  {}

  lemma {:induction false} RecoverFromLegal(cfg: Config, w: World, taskId: nat, base: nat, records: seq<Exec>,
                                            answers: seq<Recovered>, at: int)
    requires Inv(cfg, w) && Recovering(w, taskId, base, records)
    ensures Legal(cfg, w, RecoverFrom(cfg, w, taskId, records, answers, at))
    decreases |records|
  {
    hide Inv, RecoverOne, Recovering, RecoveryAborts;
    if records != [] {
      var head := RecoverOne(cfg, w, taskId, records[0], Answer(answers), at);
      RecoverOneLegal(cfg, w, taskId, base, records, Answer(answers), at);
      if !RecoveryAborts(cfg, w, taskId, records[0], Answer(answers)) {
        RecoverFromLegal(cfg, Finish(w, head), taskId, base + 1, records[1..], Rest(answers), at);
        LegalConcat(cfg, w, head, RecoverFrom(cfg, Finish(w, head), taskId, records[1..], Rest(answers), at));
      }
    }
  }

  /** Effects that at most rewrite fields of existing records. */
  predicate Repairs(e: Effect)
  {
    Quiet(e) || (e.Update? && Rewrites(e.m))
  }

  lemma {:induction false} RecoverFromRepairs(cfg: Config, w: World, taskId: nat, records: seq<Exec>,
                                              answers: seq<Recovered>, at: int)
    ensures forall k :: 0 <= k < |RecoverFrom(cfg, w, taskId, records, answers, at)| ==>
              Repairs(RecoverFrom(cfg, w, taskId, records, answers, at)[k])
    decreases |records|
  {
    hide Finish, RecoveryAborts, StatusOf;
    if records != [] {
      var head := RecoverOne(cfg, w, taskId, records[0], Answer(answers), at);
      if !RecoveryAborts(cfg, w, taskId, records[0], Answer(answers)) {
        RecoverFromRepairs(cfg, Finish(w, head), taskId, records[1..], Rest(answers), at);
      }
    }
  }

  /** All that recovery does is hold trackers and repair records. */
  lemma ReconcileRepairs(cfg: Config, w: World, c: Call)
    requires c.Reconcile?
    ensures forall k :: 0 <= k < |ReconcileScript(cfg, w, c)| ==> Repairs(ReconcileScript(cfg, w, c)[k])
  {
    hide RecoverFrom, Finish;
    var i := ActiveTask(w.tasks);
    if i < |w.tasks| {
      var t := w.tasks[i];
      RecoverFromRepairs(cfg, Finish(w, Hold(cfg, t)), t.id, Records(t), c.found, c.at);
    }
  }

  lemma ReconcileLegal(cfg: Config, w: World, c: Call)
    requires Inv(cfg, w) && c.Reconcile?
    ensures Legal(cfg, w, ReconcileScript(cfg, w, c))
  {
    var s := ReconcileScript(cfg, w, c);
    if s != [] {
      var i := ActiveTask(w.tasks);
      var t := w.tasks[i];
      FindAt(w.tasks, i);
      hide Inv, RecoverFrom;
      QuietLegal(cfg, w, Hold(cfg, t));
      CutInv(cfg, w, Hold(cfg, t), |Hold(cfg, t)|);
      var w1 := Finish(w, Hold(cfg, t));
      assert Records(t)[0..] == Records(t);
      RecoverFromLegal(cfg, w1, t.id, 0, Records(t), c.found, c.at);
      LegalConcat(cfg, w, Hold(cfg, t), RecoverFrom(cfg, w1, t.id, Records(t), c.found, c.at));
    }
  }

  /** Every call, whatever the Gateway, the verifier and the trackers answer, performs only
      effects the coordinator may produce. */
  lemma ScriptLegal(cfg: Config, w: World, c: Call)
    requires Inv(cfg, w)
    ensures Legal(cfg, w, Script(cfg, w, c))
  {
    hide Inv, Legal;
    match c
    case Create(_, _, _) => CreateLegal(cfg, w, c);
    case BeginRevision(_, _, _) => BeginRevisionLegal(cfg, w, c);
    case InvokeQuery(_, _, _, _, _, _) => QueryLegal(cfg, w, c);
    case StartAction(_, _, _, _, _, _, _, _) => ActionLegal(cfg, w, c);
    case StartSession(_, _, _, _, _, _, _, _) => SessionLegal(cfg, w, c);
    case ObserveAction(id, inv, r, dropped, at) => ObserveLegal(cfg, w, id, inv, Action, r, dropped, at);
    case ObserveSession(id, inv, r, dropped, at) => ObserveLegal(cfg, w, id, inv, Session, r, dropped, at);
    case RecordCancel(_, _, _, _) => RecordCancelLegal(cfg, w, c);
    case StopSession(_, _, _, _) => StopSessionLegal(cfg, w, c);
    case CancelTask(_, _, _) => CancelLegal(cfg, w, c);
    case Finalize(_, _, _, _, _, _) => FinalizeLegal(cfg, w, c);
    case Reconcile(_, _, _) => ReconcileLegal(cfg, w, c);
  }
}
