/** No blind retry: an Action whose POST ended without a remote identity is given up as unknown,
    and the same Action is never sent again. The promise needs recovery after every call the
    process did not see to its end, and Tool identifiers without surrounding blanks. */
module Retries {
  import opened Common
  import opened AgentTask
  import opened Protocol
  import opened TaskInvariants
  import opened WorldInvariants
  import opened Runs
  import opened Dispatching

  /** The fate of the execution is settled: it has a remote identity or was given up. */
  predicate SettledRecord(r: Exec)
  {
    r.tool.semantics.Query? || r.invocationId.Some? || r.status.Unknown?
  }

  predicate Unsettled(w: World, i: nat, j: nat)
  {
    i < |w.tasks| && j < |Records(w.tasks[i])| && !SettledRecord(Records(w.tasks[i])[j])
  }

  ghost predicate Settled(w: World)
  {
    forall i: nat, j: nat :: !Unsettled(w, i, j)
  }

  /** Only a task that is still open may hold an unsettled record. */
  ghost predicate OpenOnly(w: World)
  {
    forall i: nat, j: nat :: Unsettled(w, i, j) ==> !Terminal(w.tasks[i])
  }

  // ---- Single transactions -----------------------------------------------------------------

  /** What was settled stays settled; a dispatch intent for remote work opens the last record. */
  ghost predicate StaysSettled(t: Task, t': Task, opens: bool)
  {
    forall j :: 0 <= j < |Records(t')| && !SettledRecord(Records(t')[j]) ==>
      (j < |Records(t)| && !SettledRecord(Records(t)[j])) || (opens && j == |Records(t)|)
  }

  predicate Opens(m: Mutation)
  {
    m.MAppend? && !m.rec.tool.semantics.Query?
  }

  lemma CancelStaysSettled(cfg: Config, t: Task, uid: nat, m: Mutation)
    requires Sound(cfg, t, uid) && Permitted(cfg, t, uid, m) && m.MCancel?
    ensures StaysSettled(t, Mutate(t, m), false)
  {
    hide Sound, Mutate, Permitted, Records;
    CancelSame(cfg, t, uid, m);
    assert forall j :: 0 <= j < |Records(t)| ==> SameRemote(Records(t)[j], Records(Mutate(t, m))[j]);
  }

  lemma OtherRecordsSame(cfg: Config, t: Task, uid: nat, m: Mutation)
    requires Sound(cfg, t, uid) && Permitted(cfg, t, uid, m)
    requires !m.MAppend? && !Rewrites(m) && !m.MCancel?
    ensures Records(Mutate(t, m)) == Records(t)
  {
    ActiveIsLast(t);
    if m.MVerified? || m.MVerificationError? {
      GradedShape(t, Mutate(t, m), uid, m.attempt);
    } else if m.MBeginRevision? {
      BeginRevisionShape(t, m);
    } else {
      assert Records(Mutate(t, m)) == Records(t);
    }
  }

  lemma MutateStaysSettled(cfg: Config, t: Task, uid: nat, m: Mutation)
    requires Sound(cfg, t, uid) && Permitted(cfg, t, uid, m)
    ensures StaysSettled(t, Mutate(t, m), Opens(m))
  {
    if Rewrites(m) {
      RewriteRecords(cfg, t, uid, m);
    } else if m.MAppend? {
      AppendSound(cfg, t, uid, m.rec);
    } else if m.MCancel? {
      CancelStaysSettled(cfg, t, uid, m);
    } else {
      OtherRecordsSame(cfg, t, uid, m);
    }
    hide Sound, Mutate;
  }

  /** No record becomes unsettled from one world to the other. */
  ghost predicate Shrinks(w: World, w': World)
  {
    forall i: nat, j: nat :: Unsettled(w', i, j) ==> Unsettled(w, i, j)
  }

  predicate OpensNothing(e: Effect)
  {
    !(e.Update? && Opens(e.m))
  }

  lemma ApplyShrinks(cfg: Config, w: World, e: Effect)
    requires Inv(cfg, w) && EffectOk(cfg, w, e) && OpensNothing(e)
    ensures Shrinks(w, Apply(w, e))
  {
    hide Sound, Mutate, Permitted;
    if e.Update? {
      var i := Find(w.tasks, e.taskId);
      MutateStaysSettled(cfg, w.tasks[i], w.nextUid, e.m);
    }
  }

  lemma {:induction false} CutShrinks(cfg: Config, w: World, effects: seq<Effect>, n: nat)
    requires Inv(cfg, w) && Legal(cfg, w, effects)
    requires forall k :: 0 <= k < |effects| ==> OpensNothing(effects[k])
    ensures Shrinks(w, Cut(w, effects, n))
    decreases |effects|
  {
    hide Inv, EffectOk, Apply, OpensNothing;
    if effects != [] && n > 0 {
      ApplyShrinks(cfg, w, effects[0]);
      ApplyInv(cfg, w, effects[0]);
      CutShrinks(cfg, Apply(w, effects[0]), effects[1..], n - 1);
    }
  }

  // ---- One remote start --------------------------------------------------------------------

  /** Everything is settled but, possibly, record `j` of the executing row `i`. */
  ghost predicate OnlyOpen(w: World, i: nat, j: nat)
  {
    i < |w.tasks| && !Terminal(w.tasks[i]) && forall k: nat, l: nat :: Unsettled(w, k, l) ==> k == i && l == j
  }

  lemma AppendUnsettles(cfg: Config, w: World, id: nat, rec: Exec)
    requires Inv(cfg, w) && EffectOk(cfg, w, Update(id, MAppend(rec)))
    ensures var w' := Apply(w, Update(id, MAppend(rec)));
            var i := Find(w.tasks, id);
            forall k: nat, l: nat :: Unsettled(w', k, l) ==>
              Unsettled(w, k, l) || (k == i && l == |Records(w.tasks[i])|)
  {
    var i := Find(w.tasks, id);
    MutateStaysSettled(cfg, w.tasks[i], w.nextUid, MAppend(rec));
    Appended(cfg, w, id, rec);
    hide Inv, Mutate, Permitted;
  }

  lemma AppendOpens(cfg: Config, w: World, id: nat, rec: Exec)
    requires Inv(cfg, w) && EffectOk(cfg, w, Update(id, MAppend(rec))) && Settled(w)
    ensures var i := Find(w.tasks, id);
            OnlyOpen(Apply(w, Update(id, MAppend(rec))), i, |Records(w.tasks[i])|)
  {
    hide Inv, Mutate, Unsettled;
    Appended(cfg, w, id, rec);
    AppendUnsettles(cfg, w, id, rec);
  }

  /** The record a start works on. */
  predicate OpenAt(w: World, id: nat, recordId: nat)
  {
    var i := Find(w.tasks, id);
    i < |w.tasks| && IndexOf(Records(w.tasks[i]), recordId) < |Records(w.tasks[i])|
  }

  /** Everything is settled but, possibly, that record, and its task is still open. */
  ghost predicate OnlyRecordOpen(w: World, id: nat, recordId: nat)
  {
    OpenAt(w, id, recordId)
    && OnlyOpen(w, Find(w.tasks, id), IndexOf(Records(w.tasks[Find(w.tasks, id)]), recordId))
  }

  lemma OutcomeSettlesRecord(cfg: Config, w: World, id: nat, m: Mutation)
    requires Inv(cfg, w) && EffectOk(cfg, w, Update(id, m))
    requires m.MAccept? || (m.MFinish? && m.status.Unknown?)
    ensures OpenAt(w, id, m.id)
    ensures var i := Find(w.tasks, id);
            !Unsettled(Apply(w, Update(id, m)), i, IndexOf(Records(w.tasks[i]), m.id))
  {
    var i := Find(w.tasks, id);
    RewriteRecords(cfg, w.tasks[i], w.nextUid, m);
    hide Inv, Mutate, Permitted;
  }

  /** Writing the outcome settles the record that was open. */
  lemma OutcomeSettles(cfg: Config, w: World, id: nat, m: Mutation)
    requires Inv(cfg, w) && EffectOk(cfg, w, Update(id, m))
    requires m.MAccept? || (m.MFinish? && m.status.Unknown?)
    requires OnlyRecordOpen(w, id, m.id)
    ensures Settled(Apply(w, Update(id, m)))
  {
    ApplyShrinks(cfg, w, Update(id, m));
    OutcomeSettlesRecord(cfg, w, id, m);
    hide Inv, Apply, EffectOk, Unsettled, IndexOf;
  }

  /** A start that is cut anywhere leaves its own record open at most; a completed one nothing. */
  lemma StartSettles(cfg: Config, w: World, id: nat, rec: Exec, toolId: string, reply: Reply, trackedOk: bool,
                     at: int, n: nat)
    requires Inv(cfg, w) && EffectOk(cfg, w, Update(id, MAppend(rec))) && rec.tool.toolId == Strip(toolId)
    requires Settled(w)
    ensures var s := [Update(id, MAppend(rec))] + RemoteScript(cfg, id, rec, toolId, reply, trackedOk, at);
            SettlesFrom(w, s, n)
  {
    hide Inv, Mutate, Permitted, EffectOk, RemoteScript, Undispatched, Unsettled, IndexOf, Apply;
    var first := Update(id, MAppend(rec));
    var remote := RemoteScript(cfg, id, rec, toolId, reply, trackedOk, at);
    var s := [first] + remote;
    if n > 0 {
      assert s[1..] == remote;
      AppendOpens(cfg, w, id, rec);
      Appended(cfg, w, id, rec);
      IntentUndispatched(cfg, w, id, rec, toolId);
      RemoteSettles(cfg, Apply(w, first), id, rec, toolId, reply, trackedOk, at, n - 1);
    }
  }

  /** A completed script leaves nothing open; a cut one at most a record of an open task. */
  ghost predicate SettlesFrom(w: World, s: seq<Effect>, n: nat)
  {
    OpenOnly(Cut(w, s, n)) && (n >= |s| ==> Settled(Cut(w, s, n)))
  }

  lemma OnlyRecordOpenOpen(w: World, w': World, id: nat, recordId: nat)
    requires OnlyRecordOpen(w, id, recordId) && w'.tasks == w.tasks
    ensures OnlyRecordOpen(w', id, recordId) && OpenOnly(w')
  {
    assert forall k: nat, l: nat :: Unsettled(w', k, l) ==> Unsettled(w, k, l);
  }

  lemma RemoteSettles(cfg: Config, w: World, id: nat, rec: Exec, toolId: string, reply: Reply, trackedOk: bool,
                      at: int, n: nat)
    requires Inv(cfg, w) && Undispatched(w, id, rec, toolId) && OnlyRecordOpen(w, id, rec.id)
    ensures SettlesFrom(w, RemoteScript(cfg, id, rec, toolId, reply, trackedOk, at), n)
  {
    hide Inv, Mutate, Undispatched, Outcome, Tracking, Apply, IndexOf, EffectOk, OnlyRecordOpen, Unsettled, Sent, Cut, RemoteScript;
    var p := Post(rec.caller, toolId, rec.arguments, rec.tool.semantics);
    var sent := Sent(reply, p);
    var rest := [Update(id, Outcome(rec, reply, at))] + Tracking(cfg, id, rec, reply, trackedOk, at);
    RemoteParts(cfg, id, rec, toolId, reply, trackedOk, at);
    OutcomePermitted(cfg, w, id, rec, toolId, reply, at);
    SentLegal(cfg, w, reply, p);
    CutConcat(w, sent, rest, n);
    if n <= |sent| {
      SentCutRows(w, reply, p, n);
      OnlyRecordOpenOpen(w, Cut(w, sent, n), id, rec.id);
    } else {
      var w1 := Finish(w, sent);
      UndispatchedRow(w, id, rec, toolId);
      UpdateOk(cfg, w, w1, id, Outcome(rec, reply, at));
      OnlyRecordOpenOpen(w, w1, id, rec.id);
      OutcomeStage(cfg, w1, id, rec, reply, trackedOk, at, n - |sent|);
    }
  }

  lemma UndispatchedRow(w: World, id: nat, rec: Exec, toolId: string)
    requires Undispatched(w, id, rec, toolId)
    ensures Find(w.tasks, id) < |w.tasks|
  {}

  /** From the recorded outcome on. */
  lemma OutcomeStage(cfg: Config, w: World, id: nat, rec: Exec, reply: Reply, trackedOk: bool, at: int, n: nat)
    requires Inv(cfg, w) && EffectOk(cfg, w, Update(id, Outcome(rec, reply, at))) && OnlyRecordOpen(w, id, rec.id)
    requires n > 0
    ensures Settled(Cut(w, [Update(id, Outcome(rec, reply, at))] + Tracking(cfg, id, rec, reply, trackedOk, at), n))
  {
    var m := Outcome(rec, reply, at);
    assert Rewrites(m) && m.id == rec.id && (m.MAccept? || (m.MFinish? && m.status.Unknown?));
    assert forall k :: 0 <= k < |Tracking(cfg, id, rec, reply, trackedOk, at)| ==>
             OpensNothing(Tracking(cfg, id, rec, reply, trackedOk, at)[k]);
    hide Inv, Mutate, Outcome, Tracking, Apply, IndexOf, EffectOk, OnlyRecordOpen, Unsettled, OpensNothing, Cut;
    OutcomeSettles(cfg, w, id, m);
    OutcomeWrittenAt(cfg, w, id, m);
    TrackSettles(cfg, w, id, rec, reply, trackedOk, at, m, n);
  }

  lemma OutcomeWrittenAt(cfg: Config, w: World, id: nat, m: Mutation)
    requires Inv(cfg, w) && EffectOk(cfg, w, Update(id, m)) && (m.MFinish? || m.MAccept?)
    ensures Inv(cfg, Apply(w, Update(id, m))) && OpenAt(Apply(w, Update(id, m)), id, m.id)
  {
    OutcomeWritten(cfg, w, id, m);
    OutcomeOpen(cfg, w, id, m);
    hide Inv, Mutate, Permitted;
  }

  lemma OutcomeOpen(cfg: Config, w: World, id: nat, m: Mutation)
    requires EffectOk(cfg, w, Update(id, m)) && (m.MFinish? || m.MAccept?)
    ensures OpenAt(w, id, m.id)
  {}

  /** After the outcome nothing opens again. */
  lemma TrackSettles(cfg: Config, w: World, id: nat, rec: Exec, reply: Reply, trackedOk: bool, at: int, m: Mutation, n: nat)
    requires n > 0 && Inv(cfg, Apply(w, Update(id, m))) && Settled(Apply(w, Update(id, m)))
    requires OpenAt(Apply(w, Update(id, m)), id, rec.id)
    requires forall k :: 0 <= k < |Tracking(cfg, id, rec, reply, trackedOk, at)| ==>
               OpensNothing(Tracking(cfg, id, rec, reply, trackedOk, at)[k])
    ensures Settled(Cut(w, [Update(id, m)] + Tracking(cfg, id, rec, reply, trackedOk, at), n))
  {
    hide Inv, Mutate, Apply, Tracking, Unsettled, OpensNothing;
    var track := Tracking(cfg, id, rec, reply, trackedOk, at);
    var w1 := Apply(w, Update(id, m));
    assert ([Update(id, m)] + track)[1..] == track;
    TrackingLegal(cfg, w1, id, rec, reply, trackedOk, at);
    CutShrinks(cfg, w1, track, n - 1);
  }

  lemma UpdateOk(cfg: Config, w: World, w1: World, id: nat, m: Mutation)
    requires w1.tasks == w.tasks && w1.nextUid == w.nextUid && Find(w.tasks, id) < |w.tasks|
    requires Permitted(cfg, w.tasks[Find(w.tasks, id)], w.nextUid, m)
    ensures EffectOk(cfg, w1, Update(id, m))
  {}

  lemma SentCutRows(w: World, reply: Reply, p: Post, n: nat)
    requires n <= |Sent(reply, p)|
    ensures Cut(w, Sent(reply, p), n).tasks == w.tasks
  {
    if n == 1 { FinishOne(w, Dispatch(p)); }
  }

  // ---- Any call ------------------------------------------------------------------------------

  lemma QuerySettles(cfg: Config, w: World, c: Call, n: nat)
    requires Inv(cfg, w) && Settled(w) && !c.StartAction? && !c.StartSession?
    ensures Settled(Cut(w, Script(cfg, w, c), n))
  {
    hide Inv, Script;
    OthersOpenNothing(cfg, w, c);
    ScriptLegal(cfg, w, c);
    CutShrinks(cfg, w, Script(cfg, w, c), n);
  }

  lemma OthersOpenNothing(cfg: Config, w: World, c: Call)
    requires !c.StartAction? && !c.StartSession?
    ensures forall k :: 0 <= k < |Script(cfg, w, c)| ==> OpensNothing(Script(cfg, w, c)[k])
  {
    hide Mutate, Release, Closing, NewTask, RecoverFrom, Finish;
    if c.CancelTask? {
      var i := Find(w.tasks, c.taskId);
      if i < |w.tasks| {
        CancelRequestsQuiet(Records(w.tasks[i]), c.answers);
        ReleaseQuiet(cfg, Mutate(w.tasks[i], CancelMutation(w.tasks[i], c.answers, c.at)));
      }
    } else if c.Finalize? {
      var i := Find(w.tasks, c.taskId);
      if i < |w.tasks| {
        var t1 := Mutate(w.tasks[i], MAfter(c.after, c.bundle));
        ClosingKind(cfg, t1, c.verifier, c.now);
        ReleaseQuiet(cfg, Mutate(t1, Closing(cfg, t1, c.verifier, c.now)));
      }
    } else if c.BeginRevision? {
      var i := Find(w.tasks, c.taskId);
      if i < |w.tasks| { ReleaseQuiet(cfg, Mutate(w.tasks[i], MFailReplan)); }
    } else if c.Reconcile? {
      hide ReconcileScript;
      ReconcileRepairs(cfg, w, c);
    }
  }

  lemma ClosingKind(cfg: Config, t: Task, verifier: VerifierReply, now: int)
    ensures !Closing(cfg, t, verifier, now).MAppend?
  {}

  /** From a settled world: a completed call leaves it settled, a cut one leaves at most an open
      record in a task that is still open. */
  lemma ScriptSettles(cfg: Config, w: World, c: Call, n: nat)
    requires Inv(cfg, w) && Settled(w)
    ensures SettlesFrom(w, Script(cfg, w, c), n)
  {
    hide Inv, Mutate, Permitted, Cut, Unsettled;
    if c.StartAction? {
      ActionSettles(cfg, w, c, n);
    } else if c.StartSession? {
      SessionSettles(cfg, w, c, n);
    } else {
      QuerySettles(cfg, w, c, n);
    }
  }

  lemma SessionSettles(cfg: Config, w: World, c: Call, n: nat)
    requires Inv(cfg, w) && Settled(w) && c.StartSession?
    ensures SettlesFrom(w, SessionScript(cfg, w, c), n)
  {
    hide Inv, Mutate, RemoteScript, Permitted;
    var s := SessionScript(cfg, w, c);
    if s != [] {
      var t := w.tasks[Find(w.tasks, c.taskId)];
      IntentPermitted(cfg, w, t, c.toolId, Session, c.live, c.ownership, c.arguments, c.at);
      StartSettles(cfg, w, t.id, s[0].m.rec, c.toolId, c.reply, c.trackedOk, c.at, n);
    }
  }

  lemma BeforeSettled(cfg: Config, w: World, c: Call, n: nat)
    requires Inv(cfg, w) && Settled(w) && c.StartAction? && Find(w.tasks, c.taskId) < |w.tasks|
    ensures Settled(Cut(w, Before(w.tasks[Find(w.tasks, c.taskId)], c), n))
  {
    hide Inv;
    BeforeCaptured(cfg, w, c);
    CutShrinks(cfg, w, Before(w.tasks[Find(w.tasks, c.taskId)], c), n);
  }

  lemma ActionSettles(cfg: Config, w: World, c: Call, n: nat)
    requires Inv(cfg, w) && Settled(w) && c.StartAction?
    ensures SettlesFrom(w, ActionScript(cfg, w, c), n)
  {
    hide Inv, Mutate, RemoteScript, Cut, SameUnknown, Unsettled;
    var s := ActionScript(cfg, w, c);
    if s == [] {
      assert Cut(w, s, n) == w by { CutNothing(w, n); }
    } else {
      var i := Find(w.tasks, c.taskId);
      var t := w.tasks[i];
      var before := Before(t, c);
      BeforeCaptured(cfg, w, c);
      BeforeSettled(cfg, w, c, n);
      if PathSafe(c.toolId) {
        BeforeSettled(cfg, w, c, |before|);
        var w0 := Finish(w, before);
        var rec := s[|before|].m.rec;
        IntentFresh(cfg, w, t, c.toolId, Action, c.live, TaskOwned, c.arguments, c.at);
        assert BoundRecord(w0.tasks[i], rec);
        assert EffectOk(cfg, w0, Update(t.id, MAppend(rec)));
        var tail := [Update(t.id, MAppend(rec))] + RemoteScript(cfg, t.id, rec, c.toolId, c.reply, c.trackedOk, c.at);
        assert s == before + tail;
        hide EffectOk, BoundRecord;
        CutConcat(w, before, tail, n);
        if n > |before| {
          StartSettles(cfg, w0, t.id, rec, c.toolId, c.reply, c.trackedOk, c.at, n - |before|);
        }
      }
    }
  }

  lemma CutNothing(w: World, n: nat)
    ensures Cut(w, [], n) == w
  {}

  // ---- Recovery --------------------------------------------------------------------------

  /** Nothing before position `base` of the row under recovery is unsettled, nor any other row. */
  ghost predicate SettledUpTo(w: World, i: nat, base: nat)
  {
    forall k: nat, l: nat :: Unsettled(w, k, l) ==> k == i && l >= base
  }

  /** Settling the record at `base` moves the frontier one further. */
  lemma FrontierMoves(w: World, w': World, i: nat, base: nat)
    requires SettledUpTo(w, i, base) && Shrinks(w, w') && !Unsettled(w', i, base)
    ensures SettledUpTo(w', i, base + 1)
  {
    hide Unsettled;
  }

  /** Recovery gives an execution without a remote identity up as unknown. */
  lemma RecoverOpen(cfg: Config, w: World, taskId: nat, base: nat, records: seq<Exec>, answer: Recovered, at: int)
    requires Inv(cfg, w) && Recovering(w, taskId, base, records) && records != []
    requires SettledUpTo(w, Find(w.tasks, taskId), base) && !SettledRecord(records[0])
    ensures var w' := Finish(w, RecoverOne(cfg, w, taskId, records[0], answer, at));
            SettledUpTo(w', Find(w.tasks, taskId), base + 1)
  {
    var i := Find(w.tasks, taskId);
    var r := records[0];
    var m := MFinish(r.id, Unknown, None, None, None, at);
    CurrentRecord(cfg, w, taskId, base, records);
    AnonymousPending(cfg, w.tasks[i], w.nextUid, base);
    assert RecoverOne(cfg, w, taskId, r, answer, at) == [Update(taskId, m)];
    assert Permitted(cfg, w.tasks[i], w.nextUid, m) by { hide Sound, PostsOk, OneActive; }
    hide Inv, Apply, RecoverOne, SettledUpTo, Permitted, Recovering;
    FinishOne(w, Update(taskId, m));
    OutcomeSettlesRecord(cfg, w, taskId, m);
    ApplyShrinks(cfg, w, Update(taskId, m));
    FrontierMoves(w, Apply(w, Update(taskId, m)), i, base);
  }

  /** Recovery settles the record it looks at. */
  lemma RecoverOneSettles(cfg: Config, w: World, taskId: nat, base: nat, records: seq<Exec>, answer: Recovered, at: int)
    requires Inv(cfg, w) && Recovering(w, taskId, base, records) && records != []
    requires SettledUpTo(w, Find(w.tasks, taskId), base)
    ensures var w' := Finish(w, RecoverOne(cfg, w, taskId, records[0], answer, at));
            SettledUpTo(w', Find(w.tasks, taskId), base + 1)
  {
    var i := Find(w.tasks, taskId);
    var r := records[0];
    var head := RecoverOne(cfg, w, taskId, r, answer, at);
    if !SettledRecord(r) {
      RecoverOpen(cfg, w, taskId, base, records, answer, at);
    } else {
      CurrentRecord(cfg, w, taskId, base, records);
      assert !Unsettled(w, i, base);
      hide Inv, RecoverOne, SettledUpTo, Recovering, Unsettled;
      RecoverOneLegal(cfg, w, taskId, base, records, answer, at);
      RecoverOneRepairs(cfg, w, taskId, r, answer, at);
      CutShrinks(cfg, w, head, |head|);
      FrontierMoves(w, Finish(w, head), i, base);
    }
  }

  lemma RecoverOneRepairs(cfg: Config, w: World, taskId: nat, r: Exec, answer: Recovered, at: int)
    ensures forall k :: 0 <= k < |RecoverOne(cfg, w, taskId, r, answer, at)| ==>
              OpensNothing(RecoverOne(cfg, w, taskId, r, answer, at)[k])
  {
    hide StatusOf;
  }

  lemma AnonymousPending(cfg: Config, t: Task, uid: nat, j: nat)
    requires Sound(cfg, t, uid) && j < |Records(t)| && !SettledRecord(Records(t)[j])
    ensures Records(t)[j].status.Pending? && Records(t)[j].invocationId.None?
  {}

  lemma SameRow(cfg: Config, w: World, w': World, taskId: nat)
    requires Inv(cfg, w') && Grows(w, w') && Find(w.tasks, taskId) < |w.tasks|
    ensures Find(w'.tasks, taskId) == Find(w.tasks, taskId)
  {
    var i := Find(w.tasks, taskId);
    EvolvesBasics(w.tasks[i], w'.tasks[i]);
    FindAt(w'.tasks, i);
  }

  lemma {:induction false} RecoverFromSettles(cfg: Config, w: World, taskId: nat, base: nat, records: seq<Exec>,
                                              answers: seq<Recovered>, at: int)
    requires Inv(cfg, w) && Recovering(w, taskId, base, records)
    requires SettledUpTo(w, Find(w.tasks, taskId), base) && RecoversFrom(cfg, w, taskId, records, answers, at)
    ensures Settled(Finish(w, RecoverFrom(cfg, w, taskId, records, answers, at)))
    decreases |records|
  {
    if records == [] {
      assert base == |Records(w.tasks[Find(w.tasks, taskId)])|;
    } else {
      hide Inv, RecoverOne, Recovering, RecoveryAborts, Unsettled, Grows;
      var head := RecoverOne(cfg, w, taskId, records[0], Answer(answers), at);
      var w1 := Finish(w, head);
      RecoverOneLegal(cfg, w, taskId, base, records, Answer(answers), at);
      RecoverOneSettles(cfg, w, taskId, base, records, Answer(answers), at);
      CutInv(cfg, w, head, |head|);
      RecoveringRow(w, taskId, base, records);
      SameRow(cfg, w, w1, taskId);
      RecoverFromSettles(cfg, w1, taskId, base + 1, records[1..], Rest(answers), at);
      FinishConcat(w, head, RecoverFrom(cfg, w1, taskId, records[1..], Rest(answers), at));
    }
  }

  lemma RecoveringRow(w: World, taskId: nat, base: nat, records: seq<Exec>)
    requires Recovering(w, taskId, base, records)
    ensures Find(w.tasks, taskId) < |w.tasks|
  {}

  /** The rows recovery starts from once it holds the binding. */
  lemma HoldRecovering(cfg: Config, w: World)
    requires Inv(cfg, w) && OpenOnly(w) && ActiveTask(w.tasks) < |w.tasks|
    ensures var i := ActiveTask(w.tasks);
            var t := w.tasks[i];
            var w1 := Finish(w, Hold(cfg, t));
            && Inv(cfg, w1) && Find(w1.tasks, t.id) == i && Recovering(w1, t.id, 0, Records(t))
            && SettledUpTo(w1, i, 0)
  {
    var i := ActiveTask(w.tasks);
    var t := w.tasks[i];
    var hold := Hold(cfg, t);
    FindAt(w.tasks, i);
    assert forall k: nat :: k < |w.tasks| && !Terminal(w.tasks[k]) ==> k == i;
    assert SettledUpTo(w, i, 0) by { hide Inv; }
    hide Inv, Terminal;
    QuietLegal(cfg, w, hold);
    CutInv(cfg, w, hold, |hold|);
    var w1 := Finish(w, hold);
    assert Records(t)[0..] == Records(t);
    assert forall k: nat, l: nat :: Unsettled(w1, k, l) ==> Unsettled(w, k, l);
  }

  /** A recovery that runs to its end leaves nothing unsettled anywhere. */
  lemma RecoverySettles(cfg: Config, w: World, c: Call)
    requires Inv(cfg, w) && OpenOnly(w) && Recovers(cfg, w, c)
    ensures Settled(Finish(w, Script(cfg, w, c)))
  {
    var i := ActiveTask(w.tasks);
    if i == |w.tasks| {
      assert Finish(w, []) == w;
    } else {
      var t := w.tasks[i];
      var hold := Hold(cfg, t);
      hide Inv, Unsettled, SettledUpTo, Recovering, RecoverFrom, RecoversFrom, Settled, Hold, Finish;
      HoldRecovering(cfg, w);
      var w1 := Finish(w, hold);
      RecoverFromSettles(cfg, w1, t.id, 0, Records(t), c.found, c.at);
      FinishConcat(w, hold, RecoverFrom(cfg, w1, t.id, Records(t), c.found, c.at));
    }
  }

  ghost predicate SameStatuses(w: World, w': World)
  {
    |w'.tasks| == |w.tasks| && forall i :: 0 <= i < |w.tasks| ==> w'.tasks[i].status == w.tasks[i].status
  }

  lemma RepairStatus(w: World, e: Effect)
    requires Repairs(e)
    ensures SameStatuses(w, Apply(w, e))
  {
    hide Records, PutIn, IndexOf, Rewritten;
  }

  lemma {:induction false} RepairsKeepStatus(w: World, effects: seq<Effect>, n: nat)
    requires forall k :: 0 <= k < |effects| ==> Repairs(effects[k])
    ensures SameStatuses(w, Cut(w, effects, n))
    decreases |effects|
  {
    hide Repairs, Apply;
    if effects != [] && n > 0 {
      RepairStatus(w, effects[0]);
      RepairsKeepStatus(Apply(w, effects[0]), effects[1..], n - 1);
    }
  }

  lemma OpenOnlyKept(w: World, w': World)
    requires OpenOnly(w) && Shrinks(w, w') && SameStatuses(w, w')
    ensures OpenOnly(w')
  {
    assert forall i: nat, j: nat :: Unsettled(w', i, j) ==> i < |w.tasks|;
    hide SettledRecord;
    assert forall i: nat :: i < |w.tasks| ==> w'.tasks[i].status == w.tasks[i].status;
  }

  lemma RepairOpensNothing(e: Effect)
    requires Repairs(e)
    ensures OpensNothing(e)
  {}

  /** Interrupted or not, recovery never moves an open record into a task that has ended. */
  lemma RecoveryKeepsOpenOnly(cfg: Config, w: World, c: Call, n: nat)
    requires Inv(cfg, w) && OpenOnly(w) && c.Reconcile?
    ensures OpenOnly(Cut(w, Script(cfg, w, c), n))
  {
    var s := Script(cfg, w, c);
    assert s == ReconcileScript(cfg, w, c);
    ReconcileRepairs(cfg, w, c);
    hide Inv, ReconcileScript, Script, Repairs, OpensNothing, Cut, OpenOnly, Shrinks, SameStatuses, Legal;
    forall k | 0 <= k < |s| ensures OpensNothing(s[k]) { RepairOpensNothing(s[k]); }
    ScriptLegal(cfg, w, c);
    RepairsKeepStatus(w, s, n);
    CutShrinks(cfg, w, s, n);
    OpenOnlyKept(w, Cut(w, s, n));
  }

  // ---- Disciplined runs ----------------------------------------------------------------------

  /** While the process is down only recovery runs, and no call is abandoned by a living one. */
  predicate Allowed(s: Step, up: bool)
  {
    !s.Abandoned? && (up || s.call.Reconcile?)
  }

  /** The process is up again once a recovery ran to its end; it goes down by being killed. */
  predicate UpNext(cfg: Config, w: World, s: Step, up: bool)
  {
    s.Done? && (up || Recovers(cfg, w, s.call))
  }

  predicate Disciplined(cfg: Config, w: World, steps: seq<Step>, up: bool)
    decreases |steps|
  {
    steps == []
    || (Allowed(steps[0], up)
        && Disciplined(cfg, StepWorld(cfg, w, steps[0]), steps[1..], UpNext(cfg, w, steps[0], up)))
  }

  predicate UpAfter(cfg: Config, w: World, steps: seq<Step>, up: bool)
    decreases |steps|
  {
    if steps == [] then up
    else UpAfter(cfg, StepWorld(cfg, w, steps[0]), steps[1..], UpNext(cfg, w, steps[0], up))
  }

  predicate SameAction(p: Post, q: Post)
  {
    p.semantics.Action? && q.semantics.Action? && p.caller.taskId == q.caller.taskId
    && p.toolId == q.toolId && p.arguments == q.arguments
  }

  /** The Gateway has told the agent which invocation this POST became. */
  predicate Known(w: World, p: Post)
  {
    var i := Find(w.tasks, p.caller.taskId);
    && i < |w.tasks|
    && var j := IndexOf(Records(w.tasks[i]), p.caller.recordId);
       j < |Records(w.tasks[i])| && Records(w.tasks[i])[j].invocationId.Some?
  }

  /** The same Action again, with a Tool identifier that carries no surrounding blanks. */
  predicate Retried(p: Post, q: Post)
  {
    SameAction(p, q) && Strip(p.toolId) == p.toolId
  }

  /** Of two POSTs of one Action, the earlier one is known to have become an invocation. */
  ghost predicate NoBlindRetries(w: World)
  {
    forall k, l :: 0 <= k < l < |w.posts| && Retried(w.posts[k], w.posts[l]) ==> Known(w, w.posts[k])
  }

  lemma KnownStays(cfg: Config, w: World, w': World, p: Post)
    requires Inv(cfg, w) && Inv(cfg, w') && Grows(w, w') && Known(w, p)
    ensures Known(w', p)
  {
    var i := Find(w.tasks, p.caller.taskId);
    var j := IndexOf(Records(w.tasks[i]), p.caller.recordId);
    SameRow(cfg, w, w', p.caller.taskId);
    assert Evolves(w.tasks[i], w'.tasks[i]);
    assert SameRecord(Records(w.tasks[i])[j], Records(w'.tasks[i])[j]);
    RecordAt(cfg, w'.tasks[i], w'.nextUid, j);
  }

  /** In a settled world the retry guard sees every earlier POST whose fate is unknown. */
  lemma GuardSeesAll(cfg: Config, w: World, c: Call, p: Post, q: Post)
    requires Inv(cfg, w) && Settled(w) && Justified(w, c, p) && c.StartAction?
    requires Backed(w.tasks, q) && Retried(q, p)
    ensures Known(w, q)
  {
    var i := Find(w.tasks, q.caller.taskId);
    var j := IndexOf(Records(w.tasks[i]), q.caller.recordId);
    assert !Unsettled(w, i, j);
  }

  lemma StepNoBlindRetries(cfg: Config, w: World, s: Step, up: bool)
    requires Inv(cfg, w) && NoBlindRetries(w) && Allowed(s, up) && (up ==> Settled(w))
    ensures NoBlindRetries(StepWorld(cfg, w, s))
  {
    var script := Script(cfg, w, s.call);
    var w' := StepWorld(cfg, w, s);
    var d := Dispatches(script);
    hide Sound, Settled, Script, Evolves, Known, Backed, Justified;
    StepInv(cfg, w, s);
    ScriptDispatches(cfg, w, s.call);
    CutPosts(w, script, if s.Done? then |script| else s.n);
    if s.call.Reconcile? { RecoverySendsNothing(cfg, w, s.call, if s.Done? then |script| else s.n); }
    forall k, l | 0 <= k < l < |w'.posts| && Retried(w'.posts[k], w'.posts[l])
      ensures Known(w', w'.posts[k])
    {
      assert w'.posts[k] == (w.posts + d)[k] && w'.posts[l] == (w.posts + d)[l];
      if l >= |w.posts| {
        assert w'.posts[l] == d[0] && k < |w.posts|;
        JustifiedAction(w, s.call, d[0]);
        GuardSeesAll(cfg, w, s.call, d[0], w.posts[k]);
      }
      KnownStays(cfg, w, w', w.posts[k]);
    }
  }

  lemma JustifiedAction(w: World, c: Call, p: Post)
    requires Justified(w, c, p) && p.semantics.Action?
    ensures c.StartAction?
  {}

  lemma StepSettles(cfg: Config, w: World, s: Step, up: bool)
    requires Inv(cfg, w) && OpenOnly(w) && Allowed(s, up) && (up ==> Settled(w))
    ensures OpenOnly(StepWorld(cfg, w, s))
    ensures UpNext(cfg, w, s, up) ==> Settled(StepWorld(cfg, w, s))
  {
    hide Inv, OpenOnly, Settled, Recovers, Script;
    var script := Script(cfg, w, s.call);
    if up {
      ScriptSettles(cfg, w, s.call, if s.Done? then |script| else s.n);
    } else {
      RecoveryKeepsOpenOnly(cfg, w, s.call, if s.Done? then |script| else s.n);
      if UpNext(cfg, w, s, up) { RecoverySettles(cfg, w, s.call); }
    }
  }

  lemma {:induction false} DisciplinedRun(cfg: Config, w: World, steps: seq<Step>, up: bool)
    requires Inv(cfg, w) && OpenOnly(w) && NoBlindRetries(w) && (up ==> Settled(w))
    requires Disciplined(cfg, w, steps, up)
    ensures NoBlindRetries(After(cfg, w, steps))
    ensures UpAfter(cfg, w, steps, up) ==> Settled(After(cfg, w, steps))
    decreases |steps|
  {
    hide Inv, OpenOnly, NoBlindRetries, Settled, StepWorld, UpNext, Allowed;
    if steps != [] {
      StepInv(cfg, w, steps[0]);
      StepSettles(cfg, w, steps[0], up);
      StepNoBlindRetries(cfg, w, steps[0], up);
      DisciplinedRun(cfg, StepWorld(cfg, w, steps[0]), steps[1..], UpNext(cfg, w, steps[0], up));
    }
  }

  /** In every disciplined run, with crashes anywhere: when the same Action of a task was POSTed
      twice, the earlier POST is known to have become an invocation. An Action that ended without
      a remote identity is therefore never POSTed again. */
  lemma NoBlindRetry(cfg: Config, steps: seq<Step>, k: nat, l: nat)
    requires Disciplined(cfg, EMPTY, steps, true)
    requires k < l < |Reached(cfg, steps).posts|
    requires Retried(Reached(cfg, steps).posts[k], Reached(cfg, steps).posts[l])
    ensures Known(Reached(cfg, steps), Reached(cfg, steps).posts[k])
  {
    EmptyInv(cfg);
    DisciplinedRun(cfg, EMPTY, steps, true);
  }

  /** An Action or Session that was left without a remote identity is `unknown` from recovery on,
      and stays `unknown` and without identity whatever happens afterwards. */
  lemma UnknownForever(cfg: Config, steps: seq<Step>, more: seq<Step>, i: nat, j: nat)
    requires Disciplined(cfg, EMPTY, steps, true) && UpAfter(cfg, EMPTY, steps, true)
    requires i < |Reached(cfg, steps).tasks| && j < |Records(Reached(cfg, steps).tasks[i])|
    requires var r := Records(Reached(cfg, steps).tasks[i])[j];
             !r.tool.semantics.Query? && r.invocationId.None?
    ensures Records(Reached(cfg, steps).tasks[i])[j].status.Unknown?
    ensures var w' := Reached(cfg, steps + more);
            && i < |w'.tasks| && j < |Records(w'.tasks[i])|
            && Records(w'.tasks[i])[j].status.Unknown? && Records(w'.tasks[i])[j].invocationId.None?
  {
    hide Sound, PostsOk, After;
    EmptyInv(cfg);
    DisciplinedRun(cfg, EMPTY, steps, true);
    assert !Unsettled(Reached(cfg, steps), i, j);
    ReachedInv(cfg, steps);
    RunSplit(cfg, EMPTY, steps, more);
    RunInv(cfg, Reached(cfg, steps), more);
    var t, t' := Reached(cfg, steps).tasks[i], Reached(cfg, steps + more).tasks[i];
    assert Evolves(t, t');
    assert SameRecord(Records(t)[j], Records(t')[j]);
  }

  // ---- The limits of the promise ---------------------------------------------------------------

  /** Everything but the retry guard lets the Action through, and the request leaves the process. */
  predicate Admissible(cfg: Config, w: World, c: Call)
    requires c.StartAction?
  {
    var i := Find(w.tasks, c.taskId);
    && i < |w.tasks| && AdmittedTool(cfg, w.tasks[i], c.toolId, Action, c.live).Some?
    && PathSafe(c.toolId) && (c.reply.Answered? || c.reply.sent)
  }

  /** The task records this Action, under its stripped Tool identifier, as unknown. */
  predicate RecordedUnknown(w: World, c: Call)
    requires c.StartAction?
  {
    var i := Find(w.tasks, c.taskId);
    i < |w.tasks| && SameUnknown(w.tasks[i], Strip(c.toolId), c.arguments)
  }

  /** Exactly when the guard stops an Action that would otherwise be sent: the identical Action is
      recorded as unknown and the Tool identifier was given without surrounding blanks. */
  lemma RetryGuardExactly(cfg: Config, w: World, c: Call)
    requires Inv(cfg, w) && c.StartAction? && Admissible(cfg, w, c)
    ensures Dispatches(Script(cfg, w, c)) == [] <==> RecordedUnknown(w, c) && Strip(c.toolId) == c.toolId
  {
    var i := Find(w.tasks, c.taskId);
    var t := w.tasks[i];
    assert Sound(cfg, t, w.nextUid);
    if SameUnknown(t, c.toolId, c.arguments) {
      var k :| 0 <= k < |Records(t)|
        && Records(t)[k].tool.semantics.Action? && Records(t)[k].tool.toolId == c.toolId
        && Records(t)[k].arguments == c.arguments && Records(t)[k].status.Unknown?;
      assert BoundRecord(t, Records(t)[k]);
    } else {
      hide Sound, SameUnknown, Mutate, RemoteScript;
      var s := ActionScript(cfg, w, c);
      var rec := s[|Before(t, c)|].m.rec;
      var remote := RemoteScript(cfg, t.id, rec, c.toolId, c.reply, c.trackedOk, c.at);
      StartDispatches(Before(t, c), Update(t.id, MAppend(rec)), remote);
      RemoteSends(cfg, t.id, rec, c.toolId, c.reply, c.trackedOk, c.at);
    }
  }

  lemma RemoteSends(cfg: Config, id: nat, rec: Exec, toolId: string, reply: Reply, trackedOk: bool, at: int)
    requires reply.Answered? || reply.sent
    ensures Dispatches(RemoteScript(cfg, id, rec, toolId, reply, trackedOk, at)) != []
  {
    hide Outcome, Tracking;
    RemoteParts(cfg, id, rec, toolId, reply, trackedOk, at);
    var p := Post(rec.caller, toolId, rec.arguments, rec.tool.semantics);
    assert RemoteScript(cfg, id, rec, toolId, reply, trackedOk, at)[0] == Dispatch(p);
  }
}
