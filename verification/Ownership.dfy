/** Remote ownership: in runs that lose no call, with a Gateway that never reuses an identity and
    never takes back a definite end, the persisted sets hold exactly what may still be running, and
    the binding of every open task. */
module Ownership {
  import opened Common
  import opened AgentTask
  import opened Protocol
  import opened TaskInvariants
  import opened WorldInvariants
  import opened Runs
  import opened Retries
  import opened RetryLimits
  import opened BoundRuns
  import Installer

  /** An execution the Gateway knows under an identity. */
  predicate Remote(r: Exec)
  {
    !r.tool.semantics.Query? && r.invocationId.Some?
  }

  predicate RemoteAt(w: World, i: nat, j: nat)
  {
    i < |w.tasks| && j < |Records(w.tasks[i])| && Remote(Records(w.tasks[i])[j])
  }

  function RemoteId(w: World, i: nat, j: nat): string
    requires RemoteAt(w, i, j)
  {
    Records(w.tasks[i])[j].invocationId.value
  }

  predicate InSet(w: World, i: nat, j: nat)
    requires RemoteAt(w, i, j)
  {
    RemoteId(w, i, j) in SetOf(w, TrackerOf(Records(w.tasks[i])[j].tool.semantics))
  }

  predicate Ended(w: World, i: nat, j: nat)
    requires RemoteAt(w, i, j)
  {
    Definite(Records(w.tasks[i])[j].status)
  }

  /** Every known execution, but possibly those called `off`, is in its set exactly while its end is
      not proved. */
  ghost predicate Tracked(w: World, off: set<string>)
  {
    forall i: nat, j: nat :: RemoteAt(w, i, j) && RemoteId(w, i, j) !in off ==>
      (InSet(w, i, j) <==> !Ended(w, i, j))
  }

  ghost predicate OwnIds(w: World)
  {
    forall i: nat, j: nat, k: nat, l: nat :: RemoteAt(w, i, j) && RemoteAt(w, k, l) && (i != k || j != l) ==>
      RemoteId(w, i, j) != RemoteId(w, k, l)
  }

  ghost predicate Unused(w: World, id: string)
  {
    forall i: nat, j: nat :: RemoteAt(w, i, j) ==> RemoteId(w, i, j) != id
  }

  // ---- One record changes ------------------------------------------------------------------------

  /** Apart from record `k` of row `i`, every known execution was known before with the same facts. */
  ghost predicate ChangedAt(w: World, w': World, i: nat, k: nat)
  {
    && |w'.tasks| == |w.tasks|
    && forall a: nat, b: nat :: RemoteAt(w', a, b) && (a != i || b != k) ==>
         RemoteAt(w, a, b) && SameRemote(Records(w.tasks[a])[b], Records(w'.tasks[a])[b])
  }

  ghost predicate SameSets(w: World, w': World)
  {
    w'.invocations == w.invocations && w'.sessions == w.sessions
  }

  lemma OwnIdsKept(w: World, w': World, i: nat, k: nat)
    requires OwnIds(w) && ChangedAt(w, w', i, k)
    requires RemoteAt(w', i, k) ==>
               (RemoteAt(w, i, k) && RemoteId(w', i, k) == RemoteId(w, i, k)) || Unused(w, RemoteId(w', i, k))
    ensures OwnIds(w')
  {}

  /** While the changed record is settled apart, the others stay tracked. */
  lemma TrackedBut(w: World, w': World, i: nat, k: nat, off: set<string>)
    requires Tracked(w, off) && ChangedAt(w, w', i, k) && SameSets(w, w')
    ensures Tracked(w', off + if RemoteAt(w', i, k) then {RemoteId(w', i, k)} else {})
  {}

  /** The changed record fits as well. */
  lemma TrackedWhole(w: World, i: nat, k: nat, off: set<string>)
    requires RemoteAt(w, i, k) && Tracked(w, off + {RemoteId(w, i, k)}) && OwnIds(w)
    requires InSet(w, i, k) <==> !Ended(w, i, k)
    ensures Tracked(w, off)
  {}

  ghost predicate Owns(w: World, off: set<string>)
  {
    Tracked(w, off) && OwnIds(w)
  }

  /** Nothing known changed at all. */
  lemma NothingChanged(w: World, w': World, off: set<string>)
    requires Owns(w, off) && SameSets(w, w') && ChangedAt(w, w', |w.tasks|, 0)
    ensures Owns(w', off)
  {}

  // ---- Single effects --------------------------------------------------------------------------

  lemma RowChanged(w: World, w': World, i: nat, k: nat, t: Task, rec: Exec)
    requires i < |w.tasks| && w'.tasks == w.tasks[i := t] && k < |Records(w.tasks[i])|
    requires Records(t) == Records(w.tasks[i])[k := rec]
    ensures ChangedAt(w, w', i, k) && k < |Records(w'.tasks[i])| && Records(w'.tasks[i])[k] == rec
  {}

  lemma RewriteChanges(cfg: Config, w: World, id: nat, m: Mutation)
    requires Inv(cfg, w) && EffectOk(cfg, w, Update(id, m)) && Rewrites(m)
    ensures var i := Find(w.tasks, id);
            var k := IndexOf(Records(w.tasks[i]), m.id);
            var w' := Apply(w, Update(id, m));
            && ChangedAt(w, w', i, k) && SameSets(w, w') && w'.bindings == w.bindings
            && k < |Records(w.tasks[i])| && i < |w'.tasks| && k < |Records(w'.tasks[i])|
            && Records(w'.tasks[i])[k] == Rewritten(Records(w.tasks[i])[k], m)
  {
    var i := Find(w.tasks, id);
    var t := w.tasks[i];
    assert Sound(cfg, t, w.nextUid);
    hide Inv, Sound, Mutate, Permitted, Records, IndexOf, Rewritten, ChangedAt;
    RewriteRecords(cfg, t, w.nextUid, m);
    var k := IndexOf(Records(t), m.id);
    RowChanged(w, Apply(w, Update(id, m)), i, k, Mutate(t, m), Rewritten(Records(t)[k], m));
  }

  /** A transaction that is not about an outcome leaves every known execution as it was. */
  predicate Indifferent(m: Mutation)
  {
    !m.MFinish? && !m.MAccept? && !m.MObserve?
  }

  lemma IndifferentRow(cfg: Config, t: Task, uid: nat, m: Mutation)
    requires Sound(cfg, t, uid) && Permitted(cfg, t, uid, m) && Indifferent(m)
    ensures forall j :: 0 <= j < |Records(Mutate(t, m))| && Remote(Records(Mutate(t, m))[j]) ==>
              j < |Records(t)| && SameRemote(Records(t)[j], Records(Mutate(t, m))[j])
  {
    if m.MRespond? {
      RewriteRecords(cfg, t, uid, m);
    } else if m.MAppend? {
      AppendSound(cfg, t, uid, m.rec);
      assert !Remote(m.rec);
    } else if m.MCancel? {
      CancelSame(cfg, t, uid, m);
    } else {
      OtherRecordsSame(cfg, t, uid, m);
    }
    hide Sound, Mutate;
  }

  lemma IndifferentChanges(cfg: Config, w: World, id: nat, m: Mutation)
    requires Inv(cfg, w) && EffectOk(cfg, w, Update(id, m)) && Indifferent(m)
    ensures var w' := Apply(w, Update(id, m));
            ChangedAt(w, w', |w.tasks|, 0) && SameSets(w, w') && w'.bindings == w.bindings
  {
    var i := Find(w.tasks, id);
    assert Sound(cfg, w.tasks[i], w.nextUid);
    IndifferentRow(cfg, w.tasks[i], w.nextUid, m);
    hide Inv, Sound, Mutate, Permitted, Records, Remote;
  }

  lemma IndifferentUpdate(cfg: Config, w: World, id: nat, m: Mutation, off: set<string>)
    requires Inv(cfg, w) && EffectOk(cfg, w, Update(id, m)) && Indifferent(m) && Owns(w, off)
    ensures Owns(Apply(w, Update(id, m)), off) && Apply(w, Update(id, m)).bindings == w.bindings
  {
    hide Inv, EffectOk, Owns, ChangedAt;
    IndifferentChanges(cfg, w, id, m);
    NothingChanged(w, Apply(w, Update(id, m)), off);
  }

  /** Effects after which the sets of executions still fit: requests, holds and releases of bindings,
      and indifferent transactions. */
  predicate Harmless(e: Effect)
  {
    match e
    case Insert(t) => Records(t) == []
    case Update(_, m) => Indifferent(m)
    case Track(k, _) => k.Bindings?
    case Untrack(k, _) => k.Bindings?
    case _ => true
  }

  lemma HarmlessEffect(cfg: Config, w: World, e: Effect, off: set<string>)
    requires Inv(cfg, w) && EffectOk(cfg, w, e) && Harmless(e) && Owns(w, off)
    ensures Owns(Apply(w, e), off)
  {
    if e.Update? {
      IndifferentUpdate(cfg, w, e.taskId, e.m, off);
    } else if e.Insert? {
      hide Inv, EffectOk, Sound;
      InsertOwns(w, e.task, off);
    } else {
      hide Inv, EffectOk, Records, Remote;
      assert ChangedAt(w, Apply(w, e), |w.tasks|, 0);
      NothingChanged(w, Apply(w, e), off);
    }
  }

  lemma InsertOwns(w: World, t: Task, off: set<string>)
    requires Owns(w, off) && Records(t) == []
    ensures Owns(Apply(w, Insert(t)), off)
  {
    var w' := Apply(w, Insert(t));
    assert forall i: nat, j: nat :: RemoteAt(w', i, j) ==> i < |w.tasks| && RemoteAt(w, i, j);
    hide Records, Remote;
  }

  lemma {:induction false} HarmlessCut(cfg: Config, w: World, effects: seq<Effect>, n: nat, off: set<string>)
    requires Inv(cfg, w) && Legal(cfg, w, effects) && Owns(w, off)
    requires forall k :: 0 <= k < |effects| ==> Harmless(effects[k])
    ensures Owns(Cut(w, effects, n), off)
    decreases |effects|
  {
    hide Inv, EffectOk, Apply, Harmless, Owns;
    if effects != [] && n > 0 {
      HarmlessEffect(cfg, w, effects[0], off);
      ApplyInv(cfg, w, effects[0]);
      HarmlessCut(cfg, Apply(w, effects[0]), effects[1..], n - 1, off);
    }
  }

  // ---- Taking hold and letting go ----------------------------------------------------------------

  lemma TrackOwns(w: World, i: nat, k: nat, off: set<string>)
    requires RemoteAt(w, i, k) && Tracked(w, off + {RemoteId(w, i, k)}) && OwnIds(w) && !Ended(w, i, k)
    ensures Owns(Apply(w, Track(TrackerOf(Records(w.tasks[i])[k].tool.semantics), RemoteId(w, i, k))), off)
  {
    var id := RemoteId(w, i, k);
    var w' := Apply(w, Track(TrackerOf(Records(w.tasks[i])[k].tool.semantics), id));
    hide Records, Remote, Definite;
    forall a: nat, b: nat | RemoteAt(w', a, b) && RemoteId(w', a, b) !in off
      ensures InSet(w', a, b) <==> !Ended(w', a, b)
    {
      assert RemoteAt(w, a, b) && RemoteId(w', a, b) == RemoteId(w, a, b);
      if a != i || b != k { assert RemoteId(w, a, b) != id && (InSet(w, a, b) <==> !Ended(w, a, b)); }
    }
    assert forall a: nat, b: nat :: RemoteAt(w', a, b) ==> RemoteAt(w, a, b) && RemoteId(w', a, b) == RemoteId(w, a, b);
    hide RemoteAt, RemoteId, InSet, Ended;
  }

  lemma UntrackOwns(w: World, i: nat, k: nat, off: set<string>)
    requires RemoteAt(w, i, k) && Tracked(w, off + {RemoteId(w, i, k)}) && OwnIds(w) && Ended(w, i, k)
    ensures Owns(Apply(w, Untrack(TrackerOf(Records(w.tasks[i])[k].tool.semantics), RemoteId(w, i, k))), off)
  {
    var id := RemoteId(w, i, k);
    var w' := Apply(w, Untrack(TrackerOf(Records(w.tasks[i])[k].tool.semantics), id));
    hide Records, Remote, Definite;
    forall a: nat, b: nat | RemoteAt(w', a, b) && RemoteId(w', a, b) !in off
      ensures InSet(w', a, b) <==> !Ended(w', a, b)
    {
      assert RemoteAt(w, a, b) && RemoteId(w', a, b) == RemoteId(w, a, b);
      if a != i || b != k { assert RemoteId(w, a, b) != id && (InSet(w, a, b) <==> !Ended(w, a, b)); }
    }
    assert forall a: nat, b: nat :: RemoteAt(w', a, b) ==> RemoteAt(w, a, b) && RemoteId(w', a, b) == RemoteId(w, a, b);
    hide RemoteAt, RemoteId, InSet, Ended;
  }

  /** Holding an execution that has not ended puts it right, whether it was held or not. */
  lemma TrackRepairs(w: World, i: nat, k: nat, off: set<string>)
    requires RemoteAt(w, i, k) && Owns(w, off) && !Ended(w, i, k)
    ensures Owns(Apply(w, Track(TrackerOf(Records(w.tasks[i])[k].tool.semantics), RemoteId(w, i, k))),
                 off - {RemoteId(w, i, k)})
  {
    hide RemoteAt, RemoteId, InSet, Ended, OwnIds;
    TrackOwns(w, i, k, off - {RemoteId(w, i, k)});
  }

  // ---- Observations ----------------------------------------------------------------------------

  /** The Gateway never takes back a definite end. */
  predicate NotRevived(w: World, taskId: nat, invocationId: string, semantics: Semantics, response: Dict)
  {
    var i := Find(w.tasks, taskId);
    i < |w.tasks| ==>
      var k := OwnedIndex(Records(w.tasks[i]), invocationId, semantics);
      k < |Records(w.tasks[i])| && Definite(Records(w.tasks[i])[k].status) ==>
        Definite(StatusOf(response, Records(w.tasks[i])[k].status))
  }

  /** A rewritten record that keeps its identity. */
  lemma SameIdRewrite(w: World, w': World, i: nat, k: nat, status: ToolStatus, off: set<string>)
    requires Owns(w, off) && ChangedAt(w, w', i, k) && SameSets(w, w')
    requires RemoteAt(w, i, k) && i < |w'.tasks| && k < |Records(w'.tasks[i])|
    requires Records(w'.tasks[i])[k].invocationId == Records(w.tasks[i])[k].invocationId
    requires Records(w'.tasks[i])[k].tool == Records(w.tasks[i])[k].tool
    requires Records(w'.tasks[i])[k].status == status
    ensures RemoteAt(w', i, k) && RemoteId(w', i, k) == RemoteId(w, i, k)
    ensures OwnIds(w') && Tracked(w', off + {RemoteId(w', i, k)})
    ensures InSet(w', i, k) <==> InSet(w, i, k)
    ensures Ended(w', i, k) <==> Definite(status)
  {}

  lemma OwnsParts(w: World, off: set<string>)
    ensures Owns(w, off) <==> Tracked(w, off) && OwnIds(w)
  {}

  lemma ObserveOwns(cfg: Config, w: World, taskId: nat, invocationId: string, semantics: Semantics, response: Dict, at: int, off: set<string>)
    requires Inv(cfg, w) && Owns(w, off) && cfg.tracked && !semantics.Query?
    requires NotRevived(w, taskId, invocationId, semantics, response)
    ensures Owns(Finish(w, ObserveScript(cfg, w, taskId, invocationId, semantics, response, true, at)), off)
  {
    var s := ObserveScript(cfg, w, taskId, invocationId, semantics, response, true, at);
    if s == [] {
      assert Finish(w, s) == w;
    } else {
      ObserveStep(cfg, w, taskId, invocationId, semantics, response, true, at);
      var i := Find(w.tasks, taskId);
      var t := w.tasks[i];
      var k := OwnedIndex(Records(t), invocationId, semantics);
      var status := StatusOf(response, Records(t)[k].status);
      assert s[1..] == if Definite(status) then [Untrack(TrackerOf(semantics), invocationId)] else [];
      assert Definite(Records(t)[k].status) ==> Definite(status);
      assert RemoteAt(w, i, k) && RemoteId(w, i, k) == invocationId;
      hide Inv, EffectOk, ObserveScript, StatusOf, OwnedIndex, Permitted, Mutate, NotRevived, Definite;
      RewriteChanges(cfg, w, taskId, s[0].m);
      ObservedOwns(w, Apply(w, s[0]), i, k, status, off);
      assert s == [s[0]] + s[1..];
      FinishConcat(w, [s[0]], s[1..]);
      FinishOne(w, s[0]);
      if Definite(status) {
        FinishOne(Apply(w, s[0]), s[1]);
        assert s[1..] == [s[1]];
      }
    }
  }

  /** After the observed status is committed: a definite end is let go, anything else stays held. */
  lemma ObservedOwns(w: World, w': World, i: nat, k: nat, status: ToolStatus, off: set<string>)
    requires Owns(w, off) && ChangedAt(w, w', i, k) && SameSets(w, w')
    requires RemoteAt(w, i, k) && i < |w'.tasks| && k < |Records(w'.tasks[i])|
    requires Records(w'.tasks[i])[k].invocationId == Records(w.tasks[i])[k].invocationId
    requires Records(w'.tasks[i])[k].tool == Records(w.tasks[i])[k].tool
    requires Records(w'.tasks[i])[k].status == status
    requires Ended(w, i, k) ==> Definite(status)
    ensures if Definite(status)
            then Owns(Apply(w', Untrack(TrackerOf(Records(w.tasks[i])[k].tool.semantics), RemoteId(w, i, k))), off)
            else Owns(w', off)
  {
    SameIdRewrite(w, w', i, k, status, off);
    OwnsParts(w, off);
    if Definite(status) {
      UntrackOwns(w', i, k, off);
    } else {
      hide Records, ChangedAt, Definite, OwnIds;
      if RemoteId(w, i, k) in off {
        assert off + {RemoteId(w, i, k)} == off;
      } else {
        assert InSet(w, i, k) by { hide RemoteAt, RemoteId, InSet, Ended; }
        TrackedWhole(w', i, k, off);
      }
    }
  }

  // ---- Starts ----------------------------------------------------------------------------------

  /** An identity the Gateway gives out is one it never gave out before. */
  ghost predicate NewIdentity(w: World, reply: Reply)
  {
    Identity(reply, "invocation_id").Some? ==> Unused(w, Identity(reply, "invocation_id").value)
  }

  lemma SentOwns(cfg: Config, w: World, reply: Reply, p: Post, off: set<string>)
    requires Inv(cfg, w) && EffectOk(cfg, w, Dispatch(p)) && Owns(w, off)
    ensures Owns(Finish(w, Sent(reply, p)), off)
  {
    SentLegal(cfg, w, reply, p);
    hide Inv, Owns, Legal, EffectOk;
    HarmlessCut(cfg, w, Sent(reply, p), |Sent(reply, p)|, off);
  }

  /** The outcome of a start and the identity it revealed. */
  lemma OutcomeOwns(cfg: Config, w: World, id: nat, rec: Exec, reply: Reply, at: int, off: set<string>)
    requires Inv(cfg, w) && EffectOk(cfg, w, Update(id, Outcome(rec, reply, at))) && Owns(w, off) && cfg.tracked
    requires NewIdentity(w, reply) && !rec.tool.semantics.Query?
    requires var i := Find(w.tasks, id);
             var k := IndexOf(Records(w.tasks[i]), rec.id);
             k < |Records(w.tasks[i])| && Records(w.tasks[i])[k] == rec && rec.invocationId.None?
    ensures Owns(Finish(w, [Update(id, Outcome(rec, reply, at))] + Tracking(cfg, id, rec, reply, true, at)), off)
  {
    var i := Find(w.tasks, id);
    var k := IndexOf(Records(w.tasks[i]), rec.id);
    var m := Outcome(rec, reply, at);
    var inv := Identity(reply, "invocation_id");
    var track := Tracking(cfg, id, rec, reply, true, at);
    RewriteChanges(cfg, w, id, m);
    var w' := Apply(w, Update(id, m));
    var r' := Records(w'.tasks[i])[k];
    assert r'.invocationId == inv && r'.tool == rec.tool && !Definite(r'.status);
    assert track == if inv.Some? then [Track(TrackerOf(rec.tool.semantics), inv.value)] else [];
    hide Inv, EffectOk, Permitted, Mutate, Outcome, Tracking, Rewritten, Apply, IndexOf, StrField, Admitted;
    FinishConcat(w, [Update(id, m)], track);
    FinishOne(w, Update(id, m));
    if inv.Some? {
      NewlyHeld(w, w', i, k, off);
      FinishOne(w', track[0]);
    } else {
      StillUnknown(w, w', i, k, off);
    }
  }

  lemma NewlyHeld(w: World, w': World, i: nat, k: nat, off: set<string>)
    requires Owns(w, off) && ChangedAt(w, w', i, k) && SameSets(w, w')
    requires RemoteAt(w', i, k) && Unused(w, RemoteId(w', i, k)) && !Ended(w', i, k)
    ensures Owns(Apply(w', Track(TrackerOf(Records(w'.tasks[i])[k].tool.semantics), RemoteId(w', i, k))), off)
  {
    hide ChangedAt, Unused, RemoteAt, RemoteId, Ended, Tracked, OwnIds;
    TrackedBut(w, w', i, k, off);
    OwnIdsKept(w, w', i, k);
    TrackOwns(w', i, k, off);
  }

  lemma StillUnknown(w: World, w': World, i: nat, k: nat, off: set<string>)
    requires Owns(w, off) && ChangedAt(w, w', i, k) && SameSets(w, w') && !RemoteAt(w', i, k)
    ensures Owns(w', off)
  {
    hide ChangedAt, RemoteAt, RemoteId, Tracked, OwnIds;
    TrackedBut(w, w', i, k, off);
    assert off + {} == off;
    OwnIdsKept(w, w', i, k);
  }

  lemma RemoteOwns(cfg: Config, w: World, id: nat, rec: Exec, toolId: string, reply: Reply, at: int, off: set<string>)
    requires Inv(cfg, w) && Undispatched(w, id, rec, toolId) && Owns(w, off) && cfg.tracked
    requires NewIdentity(w, reply) && !rec.tool.semantics.Query?
    ensures Owns(Finish(w, RemoteScript(cfg, id, rec, toolId, reply, true, at)), off)
  {
    var p := Post(rec.caller, toolId, rec.arguments, rec.tool.semantics);
    var sent := Sent(reply, p);
    var rest := [Update(id, Outcome(rec, reply, at))] + Tracking(cfg, id, rec, reply, true, at);
    RemoteParts(cfg, id, rec, toolId, reply, true, at);
    OutcomePermitted(cfg, w, id, rec, toolId, reply, at);
    UndispatchedRecord(w, id, rec, toolId);
    hide Inv, Undispatched, RemoteScript, Outcome, Tracking, Permitted, Owns, Sent, Records;
    SentLegal(cfg, w, reply, p);
    SentOwns(cfg, w, reply, p, off);
    var w1 := Finish(w, sent);
    NewIdentityRows(w, w1, reply);
    UpdateOk(cfg, w, w1, id, Outcome(rec, reply, at));
    OutcomeOwns(cfg, w1, id, rec, reply, at, off);
    FinishConcat(w, sent, rest);
  }

  lemma NewIdentityRows(w: World, w1: World, reply: Reply)
    requires NewIdentity(w, reply) && w1.tasks == w.tasks
    ensures NewIdentity(w1, reply)
  {
    assert forall i: nat, j: nat :: RemoteAt(w1, i, j) ==> RemoteAt(w, i, j) && RemoteId(w1, i, j) == RemoteId(w, i, j);
  }

  lemma UndispatchedRecord(w: World, id: nat, rec: Exec, toolId: string)
    requires Undispatched(w, id, rec, toolId)
    ensures var i := Find(w.tasks, id);
            i < |w.tasks|
            && var k := IndexOf(Records(w.tasks[i]), rec.id);
               k < |Records(w.tasks[i])| && Records(w.tasks[i])[k] == rec && rec.invocationId.None?
  {}

  lemma UnusedKept(w: World, w': World, id: string)
    requires Unused(w, id) && ChangedAt(w, w', |w.tasks|, 0)
    ensures Unused(w', id)
  {}

  /** From the committed intent to the end of a start. */
  lemma StartOwns(cfg: Config, w: World, id: nat, rec: Exec, toolId: string, reply: Reply, at: int, off: set<string>)
    requires Inv(cfg, w) && EffectOk(cfg, w, Update(id, MAppend(rec))) && rec.tool.toolId == Strip(toolId)
    requires Owns(w, off) && cfg.tracked && NewIdentity(w, reply) && !rec.tool.semantics.Query?
    ensures Owns(Finish(w, [Update(id, MAppend(rec))] + RemoteScript(cfg, id, rec, toolId, reply, true, at)), off)
  {
    hide Inv, EffectOk, RemoteScript, Owns, Undispatched, ChangedAt, Apply;
    var e := Update(id, MAppend(rec));
    IntentUndispatched(cfg, w, id, rec, toolId);
    IndifferentUpdate(cfg, w, id, MAppend(rec), off);
    IndifferentChanges(cfg, w, id, MAppend(rec));
    if Identity(reply, "invocation_id").Some? { UnusedKept(w, Apply(w, e), Identity(reply, "invocation_id").value); }
    RemoteOwns(cfg, Apply(w, e), id, rec, toolId, reply, at, off);
    FinishConcat(w, [e], RemoteScript(cfg, id, rec, toolId, reply, true, at));
    FinishOne(w, e);
  }

  lemma SessionOwns(cfg: Config, w: World, c: Call, off: set<string>)
    requires Inv(cfg, w) && c.StartSession? && Owns(w, off) && cfg.tracked && NewIdentity(w, c.reply) && c.trackedOk
    ensures Owns(Finish(w, SessionScript(cfg, w, c)), off)
  {
    hide Inv, Mutate, RemoteScript, Permitted, Owns;
    var s := SessionScript(cfg, w, c);
    if s == [] {
      assert Finish(w, s) == w;
    } else {
      var t := w.tasks[Find(w.tasks, c.taskId)];
      IntentPermitted(cfg, w, t, c.toolId, Session, c.live, c.ownership, c.arguments, c.at);
      StartOwns(cfg, w, t.id, s[0].m.rec, c.toolId, c.reply, c.at, off);
    }
  }

  lemma BeforeOwns(cfg: Config, w: World, c: Call, off: set<string>)
    requires Inv(cfg, w) && c.StartAction? && Find(w.tasks, c.taskId) < |w.tasks| && Owns(w, off) && NewIdentity(w, c.reply)
    ensures var w0 := Finish(w, Before(w.tasks[Find(w.tasks, c.taskId)], c));
            Owns(w0, off) && NewIdentity(w0, c.reply)
  {
    var t := w.tasks[Find(w.tasks, c.taskId)];
    var s := Before(t, c);
    hide Inv, Owns, ChangedAt;
    if s == [] {
      assert Finish(w, s) == w;
    } else {
      var m := MBefore(c.before);
      assert EffectOk(cfg, w, Update(t.id, m));
      IndifferentUpdate(cfg, w, t.id, m, off);
      IndifferentChanges(cfg, w, t.id, m);
      FinishOne(w, Update(t.id, m));
      if Identity(c.reply, "invocation_id").Some? {
        UnusedKept(w, Apply(w, Update(t.id, m)), Identity(c.reply, "invocation_id").value);
      }
    }
  }

  lemma ActionOwns(cfg: Config, w: World, c: Call, off: set<string>)
    requires Inv(cfg, w) && c.StartAction? && Owns(w, off) && cfg.tracked && NewIdentity(w, c.reply) && c.trackedOk
    ensures Owns(Finish(w, ActionScript(cfg, w, c)), off)
  {
    hide Inv, Mutate, RemoteScript, SameUnknown, Owns, Legal, NewIdentity;
    var s := ActionScript(cfg, w, c);
    if s == [] {
      assert Finish(w, s) == w;
    } else {
      var i := Find(w.tasks, c.taskId);
      var t := w.tasks[i];
      var before := Before(t, c);
      BeforeCaptured(cfg, w, c);
      BeforeOwns(cfg, w, c, off);
      if PathSafe(c.toolId) {
        var w0 := Finish(w, before);
        var rec := s[|before|].m.rec;
        IntentFresh(cfg, w, t, c.toolId, Action, c.live, TaskOwned, c.arguments, c.at);
        assert BoundRecord(w0.tasks[i], rec);
        assert EffectOk(cfg, w0, Update(t.id, MAppend(rec)));
        var tail := [Update(t.id, MAppend(rec))] + RemoteScript(cfg, t.id, rec, c.toolId, c.reply, c.trackedOk, c.at);
        assert s == before + tail;
        hide EffectOk, BoundRecord;
        StartOwns(cfg, w0, t.id, rec, c.toolId, c.reply, c.at, off);
        FinishConcat(w, before, tail);
      }
    }
  }

  lemma QueryOwns(cfg: Config, w: World, c: Call, off: set<string>)
    requires Inv(cfg, w) && c.InvokeQuery? && Owns(w, off)
    ensures Owns(Finish(w, QueryScript(cfg, w, c)), off)
  {
    hide Inv, Mutate, Undispatched, Apply, QueryScript, QueryOutcome, Permitted, Sent, Owns;
    var s := QueryScript(cfg, w, c);
    if s == [] {
      assert Finish(w, s) == w;
    } else {
      QueryParts(cfg, w, c);
      var t := w.tasks[Find(w.tasks, c.taskId)];
      var rec := s[0].m.rec;
      var p := Post(rec.caller, c.toolId, c.arguments, Query);
      IntentPermitted(cfg, w, t, c.toolId, Query, c.live, TaskOwned, c.arguments, c.at);
      IntentUndispatched(cfg, w, t.id, rec, c.toolId);
      IndifferentUpdate(cfg, w, t.id, MAppend(rec), off);
      var w1 := Apply(w, s[0]);
      AnsweredOwns(cfg, w1, t.id, rec, c.toolId, c.reply, c.at, off);
      var rest := Sent(c.reply, p) + [Update(t.id, QueryOutcome(rec, c.reply, c.at))];
      assert s == [s[0]] + rest;
      FinishConcat(w, [s[0]], rest);
      FinishOne(w, s[0]);
    }
  }

  lemma AnswerPermitted(cfg: Config, w: World, id: nat, rec: Exec, toolId: string, reply: Reply, at: int)
    requires Undispatched(w, id, rec, toolId) && rec.tool.semantics.Query?
    ensures EffectOk(cfg, w, Dispatch(Post(rec.caller, toolId, rec.arguments, rec.tool.semantics)))
    ensures var m := QueryOutcome(rec, reply, at);
            m.MFinish? && m.id == rec.id && Permitted(cfg, w.tasks[Find(w.tasks, id)], w.nextUid, m)
  {}

  lemma AnsweredOwns(cfg: Config, w: World, id: nat, rec: Exec, toolId: string, reply: Reply, at: int, off: set<string>)
    requires Inv(cfg, w) && Undispatched(w, id, rec, toolId) && rec.tool.semantics.Query? && Owns(w, off)
    ensures Owns(Finish(w, Sent(reply, Post(rec.caller, toolId, rec.arguments, rec.tool.semantics))
                           + [Update(id, QueryOutcome(rec, reply, at))]), off)
  {
    hide Inv, Permitted, Mutate, Sent, Owns, Apply, QueryOutcome, Records, Rewritten, Undispatched, EffectOk, ChangedAt;
    var p := Post(rec.caller, toolId, rec.arguments, rec.tool.semantics);
    var m := QueryOutcome(rec, reply, at);
    AnswerPermitted(cfg, w, id, rec, toolId, reply, at);
    UndispatchedRecord(w, id, rec, toolId);
    SentLegal(cfg, w, reply, p);
    SentOwns(cfg, w, reply, p, off);
    var w1 := Finish(w, Sent(reply, p));
    UpdateOk(cfg, w, w1, id, m);
    RewriteChanges(cfg, w1, id, m);
    var i := Find(w.tasks, id);
    var k := IndexOf(Records(w.tasks[i]), rec.id);
    RewrittenTool(rec, m);
    assert !RemoteAt(Apply(w1, Update(id, m)), i, k);
    StillUnknown(w1, Apply(w1, Update(id, m)), i, k, off);
    FinishConcat(w, Sent(reply, p), [Update(id, m)]);
    FinishOne(w1, Update(id, m));
  }

  lemma RewrittenTool(r: Exec, m: Mutation)
    requires Rewrites(m)
    ensures Rewritten(r, m).tool == r.tool
  {}

  // ---- Recovery --------------------------------------------------------------------------------

  /** Recovery's tracker writes succeed. */
  predicate Obliging(answer: Recovered)
  {
    !answer.TrackerFailed? && (answer.StatusAnswered? ==> answer.dropped)
  }

  /** The first record with an identity and semantics is the only one. */
  lemma OnlyOwner(w: World, i: nat, k: nat)
    requires RemoteAt(w, i, k) && OwnIds(w)
    ensures OwnedIndex(Records(w.tasks[i]), RemoteId(w, i, k), Records(w.tasks[i])[k].tool.semantics) == k
  {
    var j := OwnedIndex(Records(w.tasks[i]), RemoteId(w, i, k), Records(w.tasks[i])[k].tool.semantics);
    assert j <= k;
    hide Records;
    assert RemoteAt(w, i, j) && RemoteId(w, i, j) == RemoteId(w, i, k);
  }

  lemma GiveUpOwns(cfg: Config, w: World, taskId: nat, base: nat, records: seq<Exec>, m: Mutation, off: set<string>)
    requires Inv(cfg, w) && Recovering(w, taskId, base, records) && records != [] && Owns(w, off)
    requires m.MFinish? && m.status.Unknown? && m.id == records[0].id && !ToolTerminal(records[0].status)
    requires m.invocationId == records[0].invocationId
    ensures Owns(Finish(w, [Update(taskId, m)]), off)
  {
    var i := Find(w.tasks, taskId);
    CurrentRecord(cfg, w, taskId, base, records);
    RecoverUnknown(cfg, w, taskId, base, records, m);
    assert EffectOk(cfg, w, Update(taskId, m));
    hide Inv, EffectOk, Recovering, Permitted, Legal, Owns;
    RewriteChanges(cfg, w, taskId, m);
    var w' := Apply(w, Update(taskId, m));
    FinishOne(w, Update(taskId, m));
    assert Records(w.tasks[i])[base] == records[0];
    assert Records(w'.tasks[i])[base].invocationId == records[0].invocationId;
    if RemoteAt(w, i, base) {
      ObservedOwns(w, w', i, base, Unknown, off);
    } else {
      StillUnknown(w, w', i, base, off);
    }
  }

  /** Recovery takes hold of this record's execution again. */
  predicate Retracked(r: Exec)
  {
    !ToolTerminal(r.status) && Remote(r)
  }

  /** What recovery leaves off track of the executions that were. */
  function LeftOff(off: set<string>, records: seq<Exec>): set<string>
  {
    if records == [] then off
    else LeftOff(if Retracked(records[0]) then off - {records[0].invocationId.value} else off, records[1..])
  }

  lemma RecoverOneOwns(cfg: Config, w: World, taskId: nat, base: nat, records: seq<Exec>, answer: Recovered, at: int,
                       off: set<string>)
    requires Inv(cfg, w) && Recovering(w, taskId, base, records) && records != [] && Owns(w, off)
    requires cfg.tracked && Obliging(answer)
    ensures Owns(Finish(w, RecoverOne(cfg, w, taskId, records[0], answer, at)), LeftOff(off, [records[0]]))
    ensures !RecoveryAborts(cfg, w, taskId, records[0], answer)
  {
    var r := records[0];
    var s := RecoverOne(cfg, w, taskId, r, answer, at);
    assert LeftOff(off, [r]) == if Retracked(r) then off - {r.invocationId.value} else off;
    if s == [] {
      assert Finish(w, s) == w;
    } else if r.invocationId.None? {
      hide Inv, Recovering, Owns;
      GiveUpOwns(cfg, w, taskId, base, records, s[0].m, off);
    } else {
      RetrackOwns(cfg, w, taskId, base, records, off);
      var track := [Track(TrackerOf(r.tool.semantics), r.invocationId.value)];
      assert s == track + s[1..];
      var w1 := Apply(w, track[0]);
      hide Inv, Recovering, Owns, ObserveScript, Apply;
      FinishConcat(w, track, s[1..]);
      FinishOne(w, track[0]);
      if answer.StatusAnswered? {
        ObserveScriptRows(cfg, w, w1, taskId, r.invocationId.value, r.tool.semantics, answer.response, answer.dropped, at);
        ObserveOwns(cfg, w1, taskId, r.invocationId.value, r.tool.semantics, answer.response, at,
                    off - {r.invocationId.value});
      } else {
        GiveUpOwns(cfg, w1, taskId, base, records, s[1].m, off - {r.invocationId.value});
        assert s[1..] == [s[1]];
      }
    }
  }

  /** Recovery takes hold of an execution before it asks for its status. */
  lemma RetrackOwns(cfg: Config, w: World, taskId: nat, base: nat, records: seq<Exec>, off: set<string>)
    requires Inv(cfg, w) && Recovering(w, taskId, base, records) && records != [] && Owns(w, off)
    requires Retracked(records[0])
    ensures var id := records[0].invocationId.value;
            var w1 := Apply(w, Track(TrackerOf(records[0].tool.semantics), id));
            && Owns(w1, off - {id}) && Inv(cfg, w1) && Recovering(w1, taskId, base, records) && w1.tasks == w.tasks
            && forall response :: NotRevived(w1, taskId, id, records[0].tool.semantics, response)
  {
    var i := Find(w.tasks, taskId);
    var e := Track(TrackerOf(records[0].tool.semantics), records[0].invocationId.value);
    CurrentRecord(cfg, w, taskId, base, records);
    assert RemoteAt(w, i, base) && !Ended(w, i, base) && RemoteId(w, i, base) == records[0].invocationId.value;
    OwnsParts(w, off);
    OnlyOwner(w, i, base);
    TrackRepairs(w, i, base, off);
    ApplyInv(cfg, w, e);
    hide Inv, Owns, StatusOf;
  }

  lemma {:induction false} RecoverFromOwns(cfg: Config, w: World, taskId: nat, base: nat, records: seq<Exec>,
                                           answers: seq<Recovered>, at: int, off: set<string>)
    requires Inv(cfg, w) && Recovering(w, taskId, base, records) && Owns(w, off) && cfg.tracked
    requires forall k :: 0 <= k < |answers| ==> Obliging(answers[k])
    ensures Owns(Finish(w, RecoverFrom(cfg, w, taskId, records, answers, at)), LeftOff(off, records))
    decreases |records|
  {
    if records == [] {
      assert Finish(w, []) == w;
    } else {
      hide Inv, RecoverOne, Recovering, RecoveryAborts, Owns, Legal;
      var head := RecoverOne(cfg, w, taskId, records[0], Answer(answers), at);
      var w1 := Finish(w, head);
      RecoverOneLegal(cfg, w, taskId, base, records, Answer(answers), at);
      RecoverOneOwns(cfg, w, taskId, base, records, Answer(answers), at, off);
      assert [records[0]][1..] == [];
      RecoverFromOwns(cfg, w1, taskId, base + 1, records[1..], Rest(answers), at, LeftOff(off, [records[0]]));
      FinishConcat(w, head, RecoverFrom(cfg, w1, taskId, records[1..], Rest(answers), at));
    }
  }

  /** What is off track after a call that ran to its end. */
  function OffAfter(w: World, c: Call, off: set<string>): (r: set<string>)
  {
    var i := ActiveTask(w.tasks);
    if c.Reconcile? && i < |w.tasks| then LeftOff(off, Records(w.tasks[i])) else off
  }

  lemma ReconcileOwns(cfg: Config, w: World, c: Call, off: set<string>)
    requires Inv(cfg, w) && c.Reconcile? && Owns(w, off) && cfg.tracked && c.bindingTracked
    requires forall k :: 0 <= k < |c.found| ==> Obliging(c.found[k])
    ensures Owns(Finish(w, ReconcileScript(cfg, w, c)), OffAfter(w, c, off))
  {
    var i := ActiveTask(w.tasks);
    if i == |w.tasks| {
      assert Finish(w, []) == w;
    } else {
      var t := w.tasks[i];
      var hold := Hold(cfg, t);
      FindAt(w.tasks, i);
      assert forall k :: 0 <= k < |hold| ==> Harmless(hold[k]);
      hide Inv, RecoverFrom, Owns, Harmless, Legal;
      QuietLegal(cfg, w, hold);
      CutInv(cfg, w, hold, |hold|);
      HarmlessCut(cfg, w, hold, |hold|, off);
      var w1 := Finish(w, hold);
      assert Records(t)[0..] == Records(t);
      RecoverFromOwns(cfg, w1, t.id, 0, Records(t), c.found, c.at, off);
      FinishConcat(w, hold, RecoverFrom(cfg, w1, t.id, Records(t), c.found, c.at));
    }
  }

  // ---- The calls that only close or answer ---------------------------------------------------------

  lemma ReleaseHarmless(cfg: Config, t: Task)
    ensures forall k :: 0 <= k < |Release(cfg, t)| ==> Harmless(Release(cfg, t)[k])
  {}

  lemma {:induction false} CancelRequestsHarmless(records: seq<Exec>)
    ensures forall k :: 0 <= k < |CancelRequests(records)| ==> Harmless(CancelRequests(records)[k])
  {
    if records != [] { CancelRequestsHarmless(records[1..]); }
  }

  lemma ClosingIndifferent(cfg: Config, t: Task, verifier: VerifierReply, now: int)
    ensures Indifferent(Closing(cfg, t, verifier, now))
  {}

  predicate Plainly(c: Call)
  {
    c.Create? || c.BeginRevision? || c.RecordCancel? || c.StopSession? || c.CancelTask? || c.Finalize?
  }

  lemma PlainlyHarmless(cfg: Config, w: World, c: Call)
    requires Plainly(c)
    ensures forall k :: 0 <= k < |Script(cfg, w, c)| ==> Harmless(Script(cfg, w, c)[k])
  {
    hide CreateScript, BeginRevisionScript, RecordCancelScript, StopSessionScript, CancelScript, FinalizeScript, Harmless;
    match c
    case Create(_, _, _) => CreateHarmless(cfg, w, c);
    case BeginRevision(_, _, _) => BeginHarmless(cfg, w, c);
    case RecordCancel(_, _, _, _) => AnswersHarmless(w, c);
    case StopSession(_, _, _, _) => AnswersHarmless(w, c);
    case CancelTask(_, _, _) => CancelHarmless(cfg, w, c);
    case Finalize(_, _, _, _, _, _) => FinalizeHarmless(cfg, w, c);
  }

  lemma CreateHarmless(cfg: Config, w: World, c: Call)
    requires c.Create?
    ensures forall k :: 0 <= k < |CreateScript(cfg, w, c)| ==> Harmless(CreateScript(cfg, w, c)[k])
  {
    var binding := if cfg.bound && c.freeze.Frozen? then Some(c.freeze.binding) else None;
    NewTaskSound(cfg, w, c.description, c.mode, binding);
    hide NewTask, Strip;
  }

  lemma BeginHarmless(cfg: Config, w: World, c: Call)
    requires c.BeginRevision?
    ensures forall k :: 0 <= k < |BeginRevisionScript(cfg, w, c)| ==> Harmless(BeginRevisionScript(cfg, w, c)[k])
  {}

  lemma AnswersHarmless(w: World, c: Call)
    requires c.RecordCancel? || c.StopSession?
    ensures c.RecordCancel? ==> forall k :: 0 <= k < |RecordCancelScript(w, c)| ==> Harmless(RecordCancelScript(w, c)[k])
    ensures c.StopSession? ==> forall k :: 0 <= k < |StopSessionScript(w, c)| ==> Harmless(StopSessionScript(w, c)[k])
  {}

  lemma CancelHarmless(cfg: Config, w: World, c: Call)
    requires c.CancelTask?
    ensures forall k :: 0 <= k < |CancelScript(cfg, w, c)| ==> Harmless(CancelScript(cfg, w, c)[k])
  {
    hide Mutate, Release, Records;
    var i := Find(w.tasks, c.taskId);
    if i < |w.tasks| {
      CancelRequestsHarmless(Records(w.tasks[i]));
      ReleaseHarmless(cfg, Mutate(w.tasks[i], CancelMutation(w.tasks[i], c.answers, c.at)));
    }
  }

  lemma FinalizeHarmless(cfg: Config, w: World, c: Call)
    requires c.Finalize?
    ensures forall k :: 0 <= k < |FinalizeScript(cfg, w, c)| ==> Harmless(FinalizeScript(cfg, w, c)[k])
  {
    hide Mutate, Release, Closing, Records, OwnedPending;
    var i := Find(w.tasks, c.taskId);
    if i < |w.tasks| {
      var t1 := Mutate(w.tasks[i], MAfter(c.after, c.bundle));
      ClosingIndifferent(cfg, t1, c.verifier, c.now);
      ReleaseHarmless(cfg, Mutate(t1, Closing(cfg, t1, c.verifier, c.now)));
    }
  }

  // ---- Runs that lose no call ----------------------------------------------------------------------

  /** The outside world keeps its promises in this call: new remote identities are new, ends are final,
      tracker writes succeed. */
  ghost predicate Benign(w: World, c: Call)
  {
    match c
    case StartAction(_, _, _, _, _, reply, trackedOk, _) => trackedOk && NewIdentity(w, reply)
    case StartSession(_, _, _, _, _, reply, trackedOk, _) => trackedOk && NewIdentity(w, reply)
    case ObserveAction(id, inv, response, dropped, _) => dropped && NotRevived(w, id, inv, Action, response)
    case ObserveSession(id, inv, response, dropped, _) => dropped && NotRevived(w, id, inv, Session, response)
    case Reconcile(found, bindingTracked, _) =>
      bindingTracked && forall k :: 0 <= k < |found| ==> Obliging(found[k])
    case _ => true
  }

  lemma CallOwns(cfg: Config, w: World, c: Call, off: set<string>)
    requires Inv(cfg, w) && Owns(w, off) && cfg.tracked && Benign(w, c)
    ensures Owns(Finish(w, Script(cfg, w, c)), OffAfter(w, c, off))
  {
    hide Inv, Owns, Legal, QueryScript, ActionScript, SessionScript, ObserveScript, ReconcileScript, NewIdentity;
    if Plainly(c) {
      PlainlyHarmless(cfg, w, c);
      ScriptLegal(cfg, w, c);
      HarmlessCut(cfg, w, Script(cfg, w, c), |Script(cfg, w, c)|, off);
    } else {
      match c
      case InvokeQuery(_, _, _, _, _, _) => QueryOwns(cfg, w, c, off);
      case StartAction(_, _, _, _, _, _, _, _) => ActionOwns(cfg, w, c, off);
      case StartSession(_, _, _, _, _, _, _, _) => SessionOwns(cfg, w, c, off);
      case ObserveAction(id, inv, response, _, at) => ObserveOwns(cfg, w, id, inv, Action, response, at, off);
      case ObserveSession(id, inv, response, _, at) => ObserveOwns(cfg, w, id, inv, Session, response, at, off);
      case Reconcile(_, _, _) => ReconcileOwns(cfg, w, c, off);
    }
  }

  // ---- Bindings ----------------------------------------------------------------------------------

  ghost predicate OwnBindings(w: World)
  {
    forall i, j :: 0 <= i < j < |w.tasks| && w.tasks[i].binding.Some? && w.tasks[j].binding.Some? ==>
      w.tasks[i].binding.value.id != w.tasks[j].binding.value.id
  }

  /** Every open bound task has its binding held. */
  ghost predicate BindingsHeld(w: World)
  {
    OwnBindings(w)
    && forall i :: 0 <= i < |w.tasks| && w.tasks[i].binding.Some? && !Terminal(w.tasks[i]) ==>
         w.tasks[i].binding.value.id in w.bindings
  }

  predicate BindingFree(e: Effect)
  {
    !e.Insert? && (e.Track? ==> !e.tracker.Bindings?) && (e.Untrack? ==> !e.tracker.Bindings?)
  }

  lemma {:induction false} BindingFreeFinish(w: World, effects: seq<Effect>)
    requires forall k :: 0 <= k < |effects| ==> BindingFree(effects[k])
    ensures Finish(w, effects).bindings == w.bindings && |Finish(w, effects).tasks| == |w.tasks|
    decreases |effects|
  {
    hide Mutate;
    if effects != [] { BindingFreeFinish(Apply(w, effects[0]), effects[1..]); }
  }

  /** Rows that evolve keep their binding and never open again. */
  lemma EvolvedBindings(w: World, w': World, dropped: set<string>)
    requires BindingsHeld(w) && Grows(w, w') && |w'.tasks| == |w.tasks| && w.bindings - dropped <= w'.bindings
    requires forall i :: 0 <= i < |w.tasks| && w.tasks[i].binding.Some? && w.tasks[i].binding.value.id in dropped ==>
               Terminal(w'.tasks[i])
    ensures BindingsHeld(w')
  {}

  /** A script that ends with the release of the task it closes. */
  ghost predicate ClosesWith(cfg: Config, w: World, s: seq<Effect>, head: seq<Effect>, i: nat)
  {
    && i < |w.tasks| && (forall k :: 0 <= k < |head| ==> BindingFree(head[k]))
    && i < |Finish(w, head).tasks| && s == head + Release(cfg, Finish(w, head).tasks[i])
  }

  lemma ReleasedBindings(cfg: Config, w: World, t: Task)
    ensures var w' := Finish(w, Release(cfg, t));
            && w'.tasks == w.tasks && w'.posts == w.posts && w'.controls == w.controls
            && w'.bindings == w.bindings - (if Release(cfg, t) == [] then {} else {t.binding.value.id})
  {
    var s := Release(cfg, t);
    if s == [] { assert Finish(w, s) == w; } else { FinishOne(w, s[0]); assert s == [s[0]]; }
  }

  /** At the moment a bound task ends, its binding is let go exactly when nothing remote is unknown. */
  lemma ReleasedExactly(cfg: Config, w: World, s: seq<Effect>, head: seq<Effect>, i: nat)
    requires ClosesWith(cfg, w, s, head, i) && cfg.tracked && BindingsHeld(w) && !Terminal(w.tasks[i])
    requires w.tasks[i].binding.Some? && Grows(w, Finish(w, head))
    requires i < |Finish(w, s).tasks| && Terminal(Finish(w, s).tasks[i])
    ensures w.tasks[i].binding.value.id in Finish(w, s).bindings <==> HasUnknownRemote(Finish(w, s).tasks[i])
  {
    var w1 := Finish(w, head);
    BindingFreeFinish(w, head);
    FinishConcat(w, head, Release(cfg, w1.tasks[i]));
    ReleasedBindings(cfg, w1, w1.tasks[i]);
    assert w1.tasks[i].binding == w.tasks[i].binding by { assert Evolves(w.tasks[i], w1.tasks[i]); }
  }

  lemma ClosedBindings(cfg: Config, w: World, s: seq<Effect>, head: seq<Effect>, i: nat)
    requires ClosesWith(cfg, w, s, head, i) && BindingsHeld(w) && Grows(w, Finish(w, head))
    ensures BindingsHeld(Finish(w, s))
  {
    var w1 := Finish(w, head);
    BindingFreeFinish(w, head);
    FinishConcat(w, head, Release(cfg, w1.tasks[i]));
    ReleasedBindings(cfg, w1, w1.tasks[i]);
    EvolvedBindings(w, w1, {});
    var r := Release(cfg, w1.tasks[i]);
    assert r != [] ==> Terminal(w1.tasks[i]) && w1.tasks[i].binding.Some?;
    hide Release, Grows, Finish;
    assert OwnBindings(w1);
  }

  predicate Closes(c: Call)
  {
    c.CancelTask? || c.Finalize? || c.BeginRevision?
  }

  lemma {:induction false} CancelRequestsFree(records: seq<Exec>)
    ensures forall k :: 0 <= k < |CancelRequests(records)| ==>
              BindingFree(CancelRequests(records)[k]) && Quiet(CancelRequests(records)[k])
  {
    if records != [] { CancelRequestsFree(records[1..]); }
  }

  lemma CancelShape(cfg: Config, w: World, c: Call) returns (head: seq<Effect>)
    requires c.CancelTask? && CancelScript(cfg, w, c) != []
    ensures ClosesWith(cfg, w, CancelScript(cfg, w, c), head, Find(w.tasks, c.taskId))
  {
    hide Mutate, Release, CancelMutation;
    var i := Find(w.tasks, c.taskId);
    var t := w.tasks[i];
    var m := CancelMutation(t, c.answers, c.at);
    var requests := CancelRequests(Records(t));
    head := requests + [Update(t.id, m)];
    CancelRequestsFree(Records(t));
    QuietLegal(cfg, w, requests);
    FinishConcat(w, requests, [Update(t.id, m)]);
    FinishOne(Finish(w, requests), Update(t.id, m));
    hide Finish, CancelRequests;
    assert Finish(w, head).tasks == w.tasks[i := Mutate(t, m)];
  }

  lemma FinalizeShape(cfg: Config, w: World, c: Call) returns (head: seq<Effect>)
    requires c.Finalize? && FinalizeScript(cfg, w, c) != []
    ensures ClosesWith(cfg, w, FinalizeScript(cfg, w, c), head, Find(w.tasks, c.taskId))
  {
    hide Release, Closing, OwnedPending, Records;
    var i := Find(w.tasks, c.taskId);
    var t := w.tasks[i];
    var m1 := MAfter(c.after, c.bundle);
    var t1 := Mutate(t, m1);
    FindUpdated(w, t.id, m1);
    hide Mutate;
    var m := Closing(cfg, t1, c.verifier, c.now);
    head := [Update(t.id, m1), Update(t.id, m)];
    assert head == [Update(t.id, m1)] + [Update(t.id, m)];
    FinishConcat(w, [Update(t.id, m1)], [Update(t.id, m)]);
    FinishOne(w, Update(t.id, m1));
    FinishOne(Apply(w, Update(t.id, m1)), Update(t.id, m));
    hide Finish;
    assert Finish(w, head).tasks[i] == Mutate(t1, m);
    assert FinalizeScript(cfg, w, c) == head + Release(cfg, Mutate(t1, m));
  }

  predicate Expired(w: World, c: Call)
    requires c.BeginRevision?
  {
    var i := Find(w.tasks, c.taskId);
    i < |w.tasks| && w.tasks[i].replanDeadline.Some? && c.now >= w.tasks[i].replanDeadline.value
  }

  lemma ExpiryShape(cfg: Config, w: World, c: Call) returns (head: seq<Effect>)
    requires c.BeginRevision? && BeginRevisionScript(cfg, w, c) != [] && Expired(w, c)
    ensures ClosesWith(cfg, w, BeginRevisionScript(cfg, w, c), head, Find(w.tasks, c.taskId))
  {
    hide Release, Mutate;
    var i := Find(w.tasks, c.taskId);
    var t := w.tasks[i];
    head := [Update(t.id, MFailReplan)];
    FinishOne(w, Update(t.id, MFailReplan));
    hide Finish;
    assert Finish(w, head).tasks[i] == Mutate(t, MFailReplan);
  }

  /** A closing call ends with the release of its task, unless it does nothing or opens a revision. */
  lemma ClosingShape(cfg: Config, w: World, c: Call) returns (head: seq<Effect>)
    requires Inv(cfg, w) && Closes(c) && Script(cfg, w, c) != [] && (c.BeginRevision? ==> Expired(w, c))
    ensures ClosesWith(cfg, w, Script(cfg, w, c), head, Find(w.tasks, c.taskId)) && Grows(w, Finish(w, head))
  {
    hide Inv, Grows, Legal, CancelScript, FinalizeScript, BeginRevisionScript, ClosesWith, Expired;
    var s := Script(cfg, w, c);
    if c.CancelTask? {
      head := CancelShape(cfg, w, c);
    } else if c.Finalize? {
      head := FinalizeShape(cfg, w, c);
    } else {
      head := ExpiryShape(cfg, w, c);
    }
    HeadGrows(cfg, w, c, head, Find(w.tasks, c.taskId));
  }

  lemma HeadGrows(cfg: Config, w: World, c: Call, head: seq<Effect>, i: nat)
    requires Inv(cfg, w) && ClosesWith(cfg, w, Script(cfg, w, c), head, i)
    ensures Grows(w, Finish(w, head))
  {
    hide Inv, Grows, Legal, Script;
    ScriptLegal(cfg, w, c);
    CutInv(cfg, w, Script(cfg, w, c), |head|);
    CutConcat(w, head, Release(cfg, Finish(w, head).tasks[i]), |head|);
  }

  lemma {:induction false} RecoveryBindingFree(cfg: Config, w: World, taskId: nat, records: seq<Exec>,
                                               answers: seq<Recovered>, at: int)
    ensures forall k :: 0 <= k < |RecoverFrom(cfg, w, taskId, records, answers, at)| ==>
              BindingFree(RecoverFrom(cfg, w, taskId, records, answers, at)[k])
    decreases |records|
  {
    hide Finish, RecoveryAborts, StatusOf;
    if records != [] {
      var head := RecoverOne(cfg, w, taskId, records[0], Answer(answers), at);
      if !RecoveryAborts(cfg, w, taskId, records[0], Answer(answers)) {
        RecoveryBindingFree(cfg, Finish(w, head), taskId, records[1..], Rest(answers), at);
      }
    }
  }

  lemma HoldKeeps(cfg: Config, w: World, t: Task)
    ensures var w1 := Finish(w, Hold(cfg, t)); w1.tasks == w.tasks && w.bindings <= w1.bindings
  {
    var hold := Hold(cfg, t);
    if hold == [] { assert Finish(w, hold) == w; } else { FinishOne(w, hold[0]); assert hold == [hold[0]]; }
  }

  lemma ReconcileHolds(cfg: Config, w: World, c: Call)
    requires Inv(cfg, w) && BindingsHeld(w) && c.Reconcile?
    ensures BindingsHeld(Finish(w, Script(cfg, w, c)))
  {
    hide Inv, BindingsHeld, Grows, Legal, RecoverFrom, Hold, Terminal, Finish;
    var s := ReconcileScript(cfg, w, c);
    assert s == Script(cfg, w, c);
    var i := ActiveTask(w.tasks);
    if s == [] {
      FinishNothing(w);
    } else {
      var t := w.tasks[i];
      var w1 := Finish(w, Hold(cfg, t));
      var rest := RecoverFrom(cfg, w1, t.id, Records(t), c.found, c.at);
      HoldKeeps(cfg, w, t);
      RecoveryBindingFree(cfg, w1, t.id, Records(t), c.found, c.at);
      BindingFreeFinish(w1, rest);
      FinishConcat(w, Hold(cfg, t), rest);
      hide Script, ReconcileScript, BindingFree;
      FinishedGrows(cfg, w, c);
      EvolvedBindings(w, Finish(w, s), {});
    }
  }

  lemma FinishNothing(w: World)
    ensures Finish(w, []) == w
  {}

  lemma FinishedGrows(cfg: Config, w: World, c: Call)
    requires Inv(cfg, w)
    ensures Grows(w, Finish(w, Script(cfg, w, c)))
  {
    hide Inv, Grows, Legal, Script;
    ScriptLegal(cfg, w, c);
    CutInv(cfg, w, Script(cfg, w, c), |Script(cfg, w, c)|);
  }

  lemma CreateHolds(cfg: Config, w: World, c: Call)
    requires Inv(cfg, w) && BindingsHeld(w) && c.Create? && cfg.tracked && FreezesAnew(w, c.freeze)
    ensures BindingsHeld(Finish(w, Script(cfg, w, c)))
  {
    var s := CreateScript(cfg, w, c);
    hide Inv, NewTask, Strip, Terminal;
    if s == [] {
      assert Finish(w, s) == w;
    } else {
      var binding := if cfg.bound then Some(c.freeze.binding) else None;
      var hold := if binding.Some? then [Track(Bindings, binding.value.id)] else [];
      var w1 := Finish(w, hold);
      if hold == [] { assert w1 == w; } else { FinishOne(w, hold[0]); }
      var rest := s[|hold|..];
      assert s == hold + rest;
      FinishConcat(w, hold, rest);
      assert rest == [rest[0]];
      FinishOne(w1, rest[0]);
      NewTaskBinding(w, c.description, c.mode, binding);
      hide CreateScript, Finish;
      CreatedBindings(w, w1, rest[0], binding);
    }
  }

  /** A new task brings its own binding; a refused one takes back a binding no task has. */
  lemma CreatedBindings(w: World, w1: World, e: Effect, binding: Option<Binding>)
    requires BindingsHeld(w) && w1.tasks == w.tasks
    requires w1.bindings == w.bindings + if binding.Some? then {binding.value.id} else {}
    requires binding.Some? ==>
               forall i :: 0 <= i < |w.tasks| && w.tasks[i].binding.Some? ==> w.tasks[i].binding.value.id != binding.value.id
    requires (e.Insert? && e.task.binding == binding)
             || (binding.Some? && e == Untrack(Bindings, binding.value.id))
    ensures BindingsHeld(Apply(w1, e))
  {}

  lemma NewTaskBinding(w: World, description: string, mode: Mode, binding: Option<Binding>)
    ensures NewTask(w, description, mode, binding).binding == binding
  {}

  lemma FreeHolds(cfg: Config, w: World, c: Call)
    requires Inv(cfg, w) && BindingsHeld(w)
    requires forall k :: 0 <= k < |Script(cfg, w, c)| ==> BindingFree(Script(cfg, w, c)[k])
    ensures BindingsHeld(Finish(w, Script(cfg, w, c)))
  {
    hide Inv, BindingsHeld, Grows, Legal, Script, BindingFree;
    var s := Script(cfg, w, c);
    BindingFreeFinish(w, s);
    ScriptLegal(cfg, w, c);
    CutInv(cfg, w, s, |s|);
    EvolvedBindings(w, Finish(w, s), {});
  }

  lemma RemoteFree(cfg: Config, id: nat, rec: Exec, toolId: string, reply: Reply, trackedOk: bool, at: int)
    ensures forall k :: 0 <= k < |RemoteScript(cfg, id, rec, toolId, reply, trackedOk, at)| ==>
              BindingFree(RemoteScript(cfg, id, rec, toolId, reply, trackedOk, at)[k])
  {}

  lemma ActionFree(cfg: Config, w: World, c: Call)
    requires c.StartAction?
    ensures forall k :: 0 <= k < |ActionScript(cfg, w, c)| ==> BindingFree(ActionScript(cfg, w, c)[k])
  {
    hide RemoteScript, PathSafe, SameUnknown, AdmittedTool;
    var s := ActionScript(cfg, w, c);
    if s != [] && PathSafe(c.toolId) {
      var t := w.tasks[Find(w.tasks, c.taskId)];
      RemoteFree(cfg, t.id, s[|Before(t, c)|].m.rec, c.toolId, c.reply, c.trackedOk, c.at);
    }
  }

  lemma SessionFree(cfg: Config, w: World, c: Call)
    requires c.StartSession?
    ensures forall k :: 0 <= k < |SessionScript(cfg, w, c)| ==> BindingFree(SessionScript(cfg, w, c)[k])
  {}

  lemma ObserveFree(cfg: Config, w: World, taskId: nat, inv: string, semantics: Semantics, response: Dict,
                    dropped: bool, at: int)
    ensures var s := ObserveScript(cfg, w, taskId, inv, semantics, response, dropped, at);
            forall k :: 0 <= k < |s| ==> BindingFree(s[k])
  {}

  lemma OthersFree(cfg: Config, w: World, c: Call)
    requires !Closes(c) && !c.Create? && !c.Reconcile?
    ensures forall k :: 0 <= k < |Script(cfg, w, c)| ==> BindingFree(Script(cfg, w, c)[k])
  {
    hide ActionScript, SessionScript, ObserveScript, PathSafe, AdmittedTool, Records, Terminal;
    match c
    case StartAction(_, _, _, _, _, _, _, _) => ActionFree(cfg, w, c);
    case StartSession(_, _, _, _, _, _, _, _) => SessionFree(cfg, w, c);
    case ObserveAction(id, inv, r, dropped, at) => ObserveFree(cfg, w, id, inv, Action, r, dropped, at);
    case ObserveSession(id, inv, r, dropped, at) => ObserveFree(cfg, w, id, inv, Session, r, dropped, at);
    case _ =>
  }

  lemma CallHolds(cfg: Config, w: World, c: Call)
    requires Inv(cfg, w) && BindingsHeld(w) && cfg.tracked && (c.Create? ==> FreezesAnew(w, c.freeze))
    ensures BindingsHeld(Finish(w, Script(cfg, w, c)))
  {
    hide Inv, BindingsHeld, Grows, Script, ClosesWith;
    if c.Reconcile? {
      ReconcileHolds(cfg, w, c);
    } else if c.Create? {
      CreateHolds(cfg, w, c);
    } else if !Closes(c) {
      OthersFree(cfg, w, c);
      FreeHolds(cfg, w, c);
    } else if Script(cfg, w, c) == [] {
      assert Finish(w, Script(cfg, w, c)) == w;
    } else if c.BeginRevision? && !Expired(w, c) {
      RevisionFree(cfg, w, c);
      FreeHolds(cfg, w, c);
    } else {
      var head := ClosingShape(cfg, w, c);
      ClosedBindings(cfg, w, Script(cfg, w, c), head, Find(w.tasks, c.taskId));
    }
  }

  lemma RevisionFree(cfg: Config, w: World, c: Call)
    requires c.BeginRevision? && !Expired(w, c)
    ensures forall k :: 0 <= k < |Script(cfg, w, c)| ==> BindingFree(Script(cfg, w, c)[k])
  {}

  // ---- Whole runs ----------------------------------------------------------------------------------

  /** Every step runs to its end, and the outside world keeps its promises. */
  ghost predicate Smooth(cfg: Config, w: World, steps: seq<Step>)
    decreases |steps|
  {
    steps == []
    || (steps[0].Done? && Benign(w, steps[0].call) && Smooth(cfg, StepWorld(cfg, w, steps[0]), steps[1..]))
  }

  lemma StepOwns(n: Naming, cfg: Config, w: World, s: Step)
    requires CollisionFree(n) && Inv(cfg, w) && Named(n, w) && CallResolved(n, w, s.call)
    requires Owns(w, {}) && BindingsHeld(w) && cfg.tracked && s.Done? && Benign(w, s.call)
    ensures Owns(StepWorld(cfg, w, s), {}) && BindingsHeld(StepWorld(cfg, w, s))
  {
    hide Inv, Owns, BindingsHeld, Benign, Script, Named, FromResolver, FreezesAnew;
    CallOwns(cfg, w, s.call, {});
    if s.call.Reconcile? && ActiveTask(w.tasks) < |w.tasks| { NothingLeftOff(Records(w.tasks[ActiveTask(w.tasks)])); }
    if s.call.Create? { FrozenIsNew(n, cfg, w, s.call.freeze); }
    CallHolds(cfg, w, s.call);
  }

  lemma {:induction false} NothingLeftOff(records: seq<Exec>)
    ensures LeftOff({}, records) == {}
  {
    if records != [] {
      assert forall id: string :: {} - {id} == {};
      NothingLeftOff(records[1..]);
    }
  }

  lemma {:induction false} SmoothOwns(n: Naming, cfg: Config, w: World, steps: seq<Step>)
    requires CollisionFree(n) && Inv(cfg, w) && Named(n, w) && Resolved(n, cfg, w, steps)
    requires Owns(w, {}) && BindingsHeld(w) && cfg.tracked && Smooth(cfg, w, steps)
    ensures Owns(After(cfg, w, steps), {}) && BindingsHeld(After(cfg, w, steps))
    decreases |steps|
  {
    hide Inv, Owns, BindingsHeld, Benign, StepWorld, Grows, Named, CallResolved, CollisionFree;
    if steps != [] {
      StepInv(cfg, w, steps[0]);
      StepNamed(n, cfg, w, steps[0]);
      StepOwns(n, cfg, w, steps[0]);
      SmoothOwns(n, cfg, StepWorld(cfg, w, steps[0]), steps[1..]);
    }
  }

  lemma NothingOwned()
    ensures Owns(EMPTY, {}) && BindingsHeld(EMPTY)
  {}

  /** In every such run, with bindings from the resolver: an execution the Gateway knows is in its persisted set exactly while its end
      is not proved, and every open bound task has its binding in the set of bindings. */
  lemma OwnershipTracked(n: Naming, cfg: Config, steps: seq<Step>)
    requires CollisionFree(n) && Resolved(n, cfg, EMPTY, steps) && cfg.tracked && Smooth(cfg, EMPTY, steps)
    ensures var w := Reached(cfg, steps);
            && (forall i: nat, j: nat :: RemoteAt(w, i, j) ==> (InSet(w, i, j) <==> !Ended(w, i, j)))
            && (forall i :: 0 <= i < |w.tasks| && w.tasks[i].binding.Some? && !Terminal(w.tasks[i]) ==>
                  w.tasks[i].binding.value.id in w.bindings)
  {
    EmptyInv(cfg);
    NothingOwned();
    SmoothOwns(n, cfg, EMPTY, steps);
    hide After, Inv, RemoteAt, RemoteId, InSet, Ended, Terminal;
  }

  /** When a step of such a run ends a bound task, the binding is let go if and only if no Action and
      no Session of the task is unknown. */
  lemma BindingReleasedExactly(n: Naming, cfg: Config, steps: seq<Step>, c: Call, i: nat)
    requires CollisionFree(n) && Resolved(n, cfg, EMPTY, steps) && cfg.tracked && Smooth(cfg, EMPTY, steps) && Closes(c)
    requires i < |Reached(cfg, steps).tasks| && !Terminal(Reached(cfg, steps).tasks[i])
    requires Reached(cfg, steps).tasks[i].binding.Some? && Find(Reached(cfg, steps).tasks, c.taskId) == i
    ensures var w' := StepWorld(cfg, Reached(cfg, steps), Done(c));
            i < |w'.tasks|
            && (Terminal(w'.tasks[i]) ==>
                  (Reached(cfg, steps).tasks[i].binding.value.id in w'.bindings <==> HasUnknownRemote(w'.tasks[i])))
  {
    var w := Reached(cfg, steps);
    var s := Script(cfg, w, c);
    ReachedInv(cfg, steps);
    EmptyInv(cfg);
    NothingOwned();
    SmoothOwns(n, cfg, EMPTY, steps);
    StepInv(cfg, w, Done(c));
    hide Reached, Inv, BindingsHeld, ClosesWith, Script, HasUnknownRemote, After, Owns;
    assert StepWorld(cfg, w, Done(c)) == Finish(w, s);
    var w' := Finish(w, s);
    assert i < |w'.tasks|;
    if s == [] {
      assert w' == w;
    } else if c.BeginRevision? && !Expired(w, c) {
      RevisionOpens(cfg, w, c, i);
    } else {
      var head := ClosingShape(cfg, w, c);
      if Terminal(w'.tasks[i]) { ReleasedExactly(cfg, w, s, head, i); }
    }
  }

  lemma RevisionOpens(cfg: Config, w: World, c: Call, i: nat)
    requires Inv(cfg, w) && c.BeginRevision? && !Expired(w, c) && Script(cfg, w, c) != []
    requires i < |w.tasks| && Find(w.tasks, c.taskId) == i
    ensures i < |Finish(w, Script(cfg, w, c)).tasks| && !Terminal(Finish(w, Script(cfg, w, c)).tasks[i])
  {
    var t := w.tasks[i];
    assert Ledger(t) by { assert Sound(cfg, t, w.nextUid); }
    hide Inv, Strip;
    ActiveIsLast(t);
    FinishOne(w, Script(cfg, w, c)[0]);
  }

  /** Hence a Skill with anything still open is one the installer refuses to replace or remove. */
  lemma OwnedSkillIsActive(n: Naming, cfg: Config, steps: seq<Step>, skill: string, stem: string, states: Installer.States,
                           lifecycle: Installer.Lifecycle)
    requires CollisionFree(n) && Resolved(n, cfg, EMPTY, steps) && cfg.tracked && Smooth(cfg, EMPTY, steps)
    requires var w := Reached(cfg, steps);
             stem in states && states[stem] == Installer.State(skill, lifecycle, w.invocations, w.sessions, w.bindings)
    requires var w := Reached(cfg, steps);
             || (exists i: nat, j: nat :: RemoteAt(w, i, j) && !Ended(w, i, j))
             || (exists i: nat :: i < |w.tasks| && w.tasks[i].binding.Some? && !Terminal(w.tasks[i]))
    ensures Installer.IsActive(states, skill)
    ensures forall tree, f ::
              (Installer.Acceptable(f) && f.payload.value.name.value == skill && Installer.Target(skill) in tree) ==>
                !Installer.Succeeds(tree, states, f)
  {
    var w := Reached(cfg, steps);
    OwnershipTracked(n, cfg, steps);
    hide Reached, Terminal, Ended, Smooth;
    if i: nat, j: nat :| RemoteAt(w, i, j) && !Ended(w, i, j) {
      assert InSet(w, i, j);
      assert w.invocations != {} || w.sessions != {};
    } else {
      var i: nat :| i < |w.tasks| && w.tasks[i].binding.Some? && !Terminal(w.tasks[i]);
      assert w.tasks[i].binding.value.id in w.bindings;
    }
    assert Installer.Holds(states[stem]);
  }

  // ---- The limit of the promise --------------------------------------------------------------------

  const TRACKING := Config(2, false, true, false)
  const KNOWN_AS_I: Dict := map["invocation_id" := JStr("i")]

  /** A process that dies between the recorded outcome of a failed start and the tracker write leaves
      an execution the Gateway knows, whose end is not proved, in no set at all. */
  lemma DeathLosesIdentity()
    ensures var w := Reached(TRACKING, [Done(CREATED), Killed(Lost("move", Some(KNOWN_AS_I)), 4)]);
            RemoteAt(w, 0, 0) && !Ended(w, 0, 0) && w.invocations == {}
            && Records(w.tasks[0])[0].status.Unknown? && !Terminal(w.tasks[0])
  {
    hide StepWorld;
    var steps := [Done(CREATED), Killed(Lost("move", Some(KNOWN_AS_I)), 4)];
    var w0 := StepWorld(TRACKING, EMPTY, steps[0]);
    CreatedTracked();
    LostTracked(w0);
    assert steps[1..] == [steps[1]] && [steps[1]][1..] == [];
    var w1 := StepWorld(TRACKING, w0, steps[1]);
    assert After(TRACKING, w1, []) == w1;
    assert After(TRACKING, w0, [steps[1]]) == w1;
  }

  lemma CreatedTracked()
    ensures var w := StepWorld(TRACKING, EMPTY, Done(CREATED));
            Plain(w, []) && w.invocations == {}
  {}

  lemma LostTracked(w: World)
    requires Plain(w, []) && w.invocations == {}
    ensures var w' := StepWorld(TRACKING, w, Killed(Lost("move", Some(KNOWN_AS_I)), 4));
            var r := GivenUp(LostRecord(w, "move"), Some(KNOWN_AS_I));
            Plain(w', [r]) && w'.invocations == {} && RemoteAt(w', 0, 0) && !Ended(w', 0, 0)
            && Records(w'.tasks[0]) == [r]
  {
    PlainRecords(w, []);
    assert Strip("move") == "move";
    var call := Lost("move", Some(KNOWN_AS_I));
    LostSends(w, "move", [], Some(KNOWN_AS_I));
    LostScript(w, "move", Some(KNOWN_AS_I));
    var four := Script(PLAIN, w, call);
    var track := [Track(Invocations, "i")];
    LostTracks(w);
    assert Script(TRACKING, w, call) == four + track;
    hide Script, Lost, GivenUp;
    CutConcat(w, four, track, 4);
    var w' := StepWorld(PLAIN, w, Done(call));
    assert w' == Cut(w, four, 4);
    CutUnfold(w, four);
    var r := GivenUp(LostRecord(w, "move"), Some(KNOWN_AS_I));
    assert [] + [r] == [r];
    PlainRecords(w', [r]);
    GivenUpKnown(LostRecord(w, "move"));
  }

  lemma GivenUpKnown(r: Exec)
    ensures var g := GivenUp(r, Some(KNOWN_AS_I));
            g.invocationId == Some("i") && g.status.Unknown? && g.tool == r.tool
  {}

  lemma LostTracks(w: World)
    requires Plain(w, []) && PathSafe("move") && !SameUnknown(w.tasks[0], "move", "{}")
    ensures Script(TRACKING, w, Lost("move", Some(KNOWN_AS_I)))
            == Script(PLAIN, w, Lost("move", Some(KNOWN_AS_I))) + [Track(Invocations, "i")]
  {
    hide SameUnknown, PathSafe;
    assert Find(w.tasks, 0) == 0;
    GivenUpKnown(LostRecord(w, "move"));
  }
}
