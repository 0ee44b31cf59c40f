/** What a start that ran to its end leaves behind, exactly: when it is let through, the one request, the
    one record for every answer of the Gateway, and what is held for it. */
module Starts {
  import opened Common
  import opened AgentTask
  import opened Protocol
  import opened Facts
  import opened TaskInvariants
  import opened WorldInvariants
  import opened Runs
  import opened Dispatching
  import opened Retries
  import Owning = Ownership

  // ---- The record ------------------------------------------------------------------------------

  /** The task has one record more, at the end, and the earlier ones are untouched. */
  ghost predicate OneMore(w: World, w': World, i: nat)
  {
    && i < |w.tasks| && i < |w'.tasks| && |Records(w'.tasks[i])| == |Records(w.tasks[i])| + 1
    && Records(w'.tasks[i])[..|Records(w.tasks[i])|] == Records(w.tasks[i])
  }

  function Newest(w: World, i: nat): Exec
    requires i < |w.tasks| && Records(w.tasks[i]) != []
  {
    Records(w.tasks[i])[|Records(w.tasks[i])| - 1]
  }

  /** Effects after the intent that only rewrite the newest record. */
  lemma RewriteNewest(cfg: Config, w0: World, w: World, id: nat, m: Mutation)
    requires Inv(cfg, w) && EffectOk(cfg, w, Update(id, m)) && Rewrites(m)
    requires OneMore(w0, w, Find(w.tasks, id)) && m.id == Newest(w, Find(w.tasks, id)).id
    ensures var i := Find(w.tasks, id);
            var w' := Apply(w, Update(id, m));
            && Inv(cfg, w') && Find(w'.tasks, id) == i && OneMore(w0, w', i)
            && Newest(w', i) == Rewritten(Newest(w, i), m)
  {
    var i := Find(w.tasks, id);
    var t := w.tasks[i];
    assert Sound(cfg, t, w.nextUid);
    hide Inv, Sound, Mutate, Permitted, Records, IndexOf, Rewritten;
    RecordAt(cfg, t, w.nextUid, |Records(t)| - 1);
    RewriteRecords(cfg, t, w.nextUid, m);
    UpdateInv(cfg, w, id, m);
    FindUpdated(w, id, m);
  }

  /** The tracker write leaves the newest record alone; a failed one puts a warning into its response. */
  lemma TrackingKeepsNewest(cfg: Config, w0: World, w: World, id: nat, rec: Exec, reply: Reply, trackedOk: bool, at: int)
    requires Inv(cfg, w) && OneMore(w0, w, Find(w.tasks, id)) && Newest(w, Find(w.tasks, id)).id == rec.id
    ensures var w' := Finish(w, Tracking(cfg, id, rec, reply, trackedOk, at));
            var i := Find(w.tasks, id);
            && OneMore(w0, w', i)
            && Newest(w', i) ==
               if Identity(reply, "invocation_id").Some? && cfg.tracked && !trackedOk
               then Newest(w, i).(response := Some(Warned(if Admitted(reply, rec.tool.semantics) then reply.response else FAILURE)),
                                  updatedAt := at)
               else Newest(w, i)
  {
    var i := Find(w.tasks, id);
    var s := Tracking(cfg, id, rec, reply, trackedOk, at);
    var response := if Admitted(reply, rec.tool.semantics) then reply.response else FAILURE;
    if Identity(reply, "invocation_id").None? || !cfg.tracked {
      assert s == [];
      hide *;
      NothingFinishes(w);
    } else if trackedOk {
      var e := Track(TrackerOf(rec.tool.semantics), Identity(reply, "invocation_id").value);
      assert s == [e];
      assert Apply(w, e).tasks == w.tasks;
      hide *;
      FinishOne(w, e);
      SameRowsOneMore(w0, w, Apply(w, e), i);
    } else {
      var m := MRespond(rec.id, Warned(response), at);
      assert s == [Update(id, m)];
      assert Rewritten(Newest(w, i), m) == Newest(w, i).(response := Some(Warned(response)), updatedAt := at);
      NewestFound(cfg, w, i);
      RespondAllowed(cfg, w, id, m);
      assert Rewrites(m) && m.id == Newest(w, i).id;
      hide *;
      FinishOne(w, Update(id, m));
      RewriteNewest(cfg, w0, w, id, m);
    }
  }

  lemma NothingFinishes(w: World)
    ensures Finish(w, []) == w
  {}

  lemma RespondAllowed(cfg: Config, w: World, id: nat, m: Mutation)
    requires Find(w.tasks, id) < |w.tasks| && m.MRespond?
    requires IndexOf(Records(w.tasks[Find(w.tasks, id)]), m.id) < |Records(w.tasks[Find(w.tasks, id)])|
    ensures EffectOk(cfg, w, Update(id, m))
  {}

  lemma NewestFound(cfg: Config, w: World, i: nat)
    requires Inv(cfg, w) && i < |w.tasks| && Records(w.tasks[i]) != []
    ensures IndexOf(Records(w.tasks[i]), Newest(w, i).id) < |Records(w.tasks[i])|
  {}

  /** The record of a start that was answered like this. It is accepted exactly when the Gateway gave
      every identity asked for, and otherwise unknown; it keeps whatever identity came to light. */
  function Answered(rec: Exec, reply: Reply, warned: bool, at: int): Exec
  {
    var inv, att := Revealed(reply, "invocation_id"), Revealed(reply, "attempt_id");
    var admitted := reply.Answered? && inv.Some? && (rec.tool.semantics == Session || att.Some?);
    rec.(status := if admitted then Accepted else Unknown, invocationId := inv, attemptId := att,
         response := if warned then Some(Warned(if admitted then reply.response else FAILURE))
                     else if admitted then Some(reply.response) else None,
         updatedAt := at)
  }

  lemma OutcomeAnswers(rec: Exec, reply: Reply, at: int)
    requires rec.invocationId.None? && rec.attemptId.None?
    ensures Rewritten(rec, Outcome(rec, reply, at)) == Answered(rec, reply, false, at)
    ensures Admitted(reply, rec.tool.semantics) <==> Answered(rec, reply, false, at).status == Accepted
  {
    IdentityIsRevealed(reply, "invocation_id");
    IdentityIsRevealed(reply, "attempt_id");
    hide Identity, Revealed;
  }

  lemma AnsweredWarned(rec: Exec, reply: Reply, at: int)
    ensures var inner := Answered(rec, reply, false, at);
            Answered(rec, reply, true, at) ==
            inner.(response := Some(Warned(if inner.status == Accepted then reply.response else FAILURE)), updatedAt := at)
  {}

  lemma StartEnds(cfg: Config, w: World, id: nat, rec: Exec, toolId: string, reply: Reply, trackedOk: bool, at: int)
    requires Inv(cfg, w) && EffectOk(cfg, w, Update(id, MAppend(rec))) && rec.tool.toolId == Strip(toolId)
    requires rec.attemptId.None?
    ensures var w' := Finish(w, [Update(id, MAppend(rec))] + RemoteScript(cfg, id, rec, toolId, reply, trackedOk, at));
            var i := Find(w.tasks, id);
            && OneMore(w, w', i)
            && Newest(w', i) ==
               Answered(rec, reply, Revealed(reply, "invocation_id").Some? && cfg.tracked && !trackedOk, at)
  {
    FreshHasNone(cfg, w, id, rec);
    OutcomeAnswers(rec, reply, at);
    AnsweredWarned(rec, reply, at);
    IdentityIsRevealed(reply, "invocation_id");
    OutcomeRewrites(rec, reply, at);
    hide Inv, EffectOk, Undispatched, Records, Mutate, Permitted, StrField, Tracking, Sent, OneMore, IndexOf, Rewritten,
         Outcome, Identity, Revealed, Admitted, Answered, Warned, Find, Apply, Cut, Rewrites, RemoteScript;
    var i := Find(w.tasks, id);
    var w1 := Apply(w, Update(id, MAppend(rec)));
    IntentOneMore(cfg, w, id, rec);
    IntentUndispatched(cfg, w, id, rec, toolId);
    var p := Post(rec.caller, toolId, rec.arguments, rec.tool.semantics);
    var m := Outcome(rec, reply, at);
    OutcomePermitted(cfg, w1, id, rec, toolId, reply, at);
    SentLegal(cfg, w1, reply, p);
    var w2 := Finish(w1, Sent(reply, p));
    SameRowsOneMore(w, w1, w2, i);
    UndispatchedRow(w1, id, rec, toolId);
    UpdateOk(cfg, w1, w2, id, m);
    RewriteNewest(cfg, w, w2, id, m);
    var w3 := Apply(w2, Update(id, m));
    TrackingKeepsNewest(cfg, w, w3, id, rec, reply, trackedOk, at);
    var track := Tracking(cfg, id, rec, reply, trackedOk, at);
    RemoteParts(cfg, id, rec, toolId, reply, trackedOk, at);
    FinishConcat(w, [Update(id, MAppend(rec))], RemoteScript(cfg, id, rec, toolId, reply, trackedOk, at));
    FinishConcat(w1, Sent(reply, p), [Update(id, m)] + track);
    FinishConcat(w2, [Update(id, m)], track);
    FinishOne(w, Update(id, MAppend(rec)));
    FinishOne(w2, Update(id, m));
  }

  lemma OutcomeRewrites(rec: Exec, reply: Reply, at: int)
    ensures Rewrites(Outcome(rec, reply, at)) && Outcome(rec, reply, at).id == rec.id
  {}

  lemma BeforeSameRecords(w: World, w0: World, w': World, i: nat)
    requires i < |w.tasks| && i < |w0.tasks| && w0.tasks[i] == w.tasks[i].(beforeRef := w0.tasks[i].beforeRef)
    requires OneMore(w0, w', i)
    ensures OneMore(w, w', i)
  {}

  lemma FreshHasNone(cfg: Config, w: World, id: nat, rec: Exec)
    requires EffectOk(cfg, w, Update(id, MAppend(rec)))
    ensures rec.invocationId.None? && rec.status.Pending?
  {}

  lemma SameRowsOneMore(w0: World, w1: World, w2: World, i: nat)
    requires OneMore(w0, w1, i) && w2.tasks == w1.tasks
    ensures OneMore(w0, w2, i) && Newest(w2, i) == Newest(w1, i)
  {}

  lemma IntentOneMore(cfg: Config, w: World, id: nat, rec: Exec)
    requires Inv(cfg, w) && EffectOk(cfg, w, Update(id, MAppend(rec)))
    ensures var w1 := Apply(w, Update(id, MAppend(rec)));
            var i := Find(w.tasks, id);
            Inv(cfg, w1) && Find(w1.tasks, id) == i && OneMore(w, w1, i) && Newest(w1, i) == rec
  {
    Appended(cfg, w, id, rec);
    hide Inv, EffectOk, Apply, Records;
  }

  // ---- Everything else -------------------------------------------------------------------------

  /** Effects of a start: on the records or the before evidence of one row, requests, and holds. */
  predicate Local(e: Effect, id: nat)
  {
    || (e.Update? && e.taskId == id && (Rewrites(e.m) || e.m.MAppend? || e.m.MBefore?))
    || e.Dispatch? || e.Track?
  }

  /** Who is taken hold of by these effects. */
  function HeldBy(s: seq<Effect>, k: Tracker): set<string>
  {
    if s == [] then {} else (if s[0].Track? && s[0].tracker == k then {s[0].id} else {}) + HeldBy(s[1..], k)
  }

  lemma {:induction false} HeldConcat(a: seq<Effect>, b: seq<Effect>, k: Tracker)
    ensures HeldBy(a + b, k) == HeldBy(a, k) + HeldBy(b, k)
  {
    if a == [] {
      assert a + b == b;
    } else {
      HeldConcat(a[1..], b, k);
      assert (a + b)[1..] == a[1..] + b;
    }
  }

  lemma {:induction false} NothingHeld(s: seq<Effect>, k: Tracker)
    requires forall j :: 0 <= j < |s| ==> !s[j].Track?
    ensures HeldBy(s, k) == {}
  {
    if s != [] { NothingHeld(s[1..], k); }
  }

  /** The row keeps all but its revisions and its before evidence. */
  predicate SameHeader(t: Task, t': Task)
  {
    t' == t.(revisions := t'.revisions, beforeRef := t'.beforeRef)
  }

  lemma LocalRow(t: Task, m: Mutation)
    requires Rewrites(m) || m.MAppend? || m.MBefore?
    ensures SameHeader(t, Mutate(t, m)) && (!m.MBefore? ==> Mutate(t, m).beforeRef == t.beforeRef)
  {
    hide Records, Rewritten, PutIn;
  }

  ghost predicate Elsewhere(w: World, w': World, i: nat)
  {
    && |w'.tasks| == |w.tasks| && i < |w.tasks| && SameHeader(w.tasks[i], w'.tasks[i])
    && (forall j :: 0 <= j < |w.tasks| && j != i ==> w'.tasks[j] == w.tasks[j])
    && w'.controls == w.controls && w'.bindings == w.bindings
  }

  lemma LocalStep(w: World, e: Effect, id: nat, i: nat)
    requires Find(w.tasks, id) == i < |w.tasks| && Local(e, id) && (e.Track? ==> !e.tracker.Bindings?)
    ensures var w1 := Apply(w, e);
            && Elsewhere(w, w1, i) && Find(w1.tasks, id) == i
            && w1.invocations == w.invocations + (if e.Track? && e.tracker == Invocations then {e.id} else {})
            && w1.sessions == w.sessions + (if e.Track? && e.tracker == Sessions then {e.id} else {})
            && (!(e.Update? && e.m.MBefore?) ==> w1.tasks[i].beforeRef == w.tasks[i].beforeRef)
  {
    if e.Update? { LocalRow(w.tasks[i], e.m); }
    hide Mutate, Rewrites;
    FindSame(w, Apply(w, e), id, i);
  }

  lemma ElsewhereTransitive(a: World, b: World, c: World, i: nat)
    requires Elsewhere(a, b, i) && Elsewhere(b, c, i)
    ensures Elsewhere(a, c, i)
  {}

  lemma ElsewhereRow(w: World, w1: World, i: nat)
    requires Elsewhere(w, w1, i)
    ensures |w1.tasks| == |w.tasks| && i < |w.tasks|
  {}

  lemma ElsewhereSame(w: World, i: nat)
    requires i < |w.tasks|
    ensures Elsewhere(w, w, i)
  {}

  lemma {:induction false} LocalFinish(w: World, s: seq<Effect>, id: nat, i: nat)
    requires Find(w.tasks, id) == i < |w.tasks|
    requires forall j :: 0 <= j < |s| ==> Local(s[j], id) && (s[j].Track? ==> !s[j].tracker.Bindings?)
    ensures var w' := Finish(w, s);
            && Elsewhere(w, w', i) && |w'.tasks| == |w.tasks|
            && w'.invocations == w.invocations + HeldBy(s, Invocations) && w'.sessions == w.sessions + HeldBy(s, Sessions)
            && ((forall j :: 0 <= j < |s| ==> !(s[j].Update? && s[j].m.MBefore?)) ==>
                  w'.tasks[i].beforeRef == w.tasks[i].beforeRef)
    decreases |s|
  {
    hide Local, Elsewhere, Find, Apply;
    if s == [] {
      ElsewhereSame(w, i);
      NothingFinishes(w);
    } else {
      var w1 := Apply(w, s[0]);
      LocalStep(w, s[0], id, i);
      ElsewhereRow(w, w1, i);
      assert forall j :: 0 <= j < |s[1..]| ==> s[1..][j] == s[j + 1];
      LocalFinish(w1, s[1..], id, i);
      ElsewhereTransitive(w, w1, Finish(w1, s[1..]), i);
      assert Finish(w, s) == Finish(w1, s[1..]);
    }
  }

  lemma FindSame(w: World, w1: World, id: nat, i: nat)
    requires Find(w.tasks, id) == i < |w.tasks| == |w1.tasks| && forall j :: 0 <= j < |w.tasks| ==> w1.tasks[j].id == w.tasks[j].id
    ensures Find(w1.tasks, id) == i
  {
    assert w1.tasks[i].id == id;
  }

  // ---- Whole starts ----------------------------------------------------------------------------

  /** The task takes Tool calls, and this Tool may be called: it is the first with this identifier that
      the binding lists, of the right kind and still live; or nothing is bound at all. */
  ghost predicate MayCall(cfg: Config, t: Task, toolId: string, semantics: Semantics, live: bool)
  {
    && t.status == Executing
    && if t.binding.None? then !cfg.bound && toolId != ""
       else && cfg.bound && live
            && exists k :: 0 <= k < |t.binding.value.tools| && t.binding.value.tools[k].toolId == toolId
                           && t.binding.value.tools[k].semantics == semantics
                           && forall j :: 0 <= j < k ==> t.binding.value.tools[j].toolId != toolId
  }

  lemma {:induction false} FirstListed(tools: seq<ToolSpec>, toolId: string)
    ensures forall j :: 0 <= j < BoundTool(tools, toolId) ==> tools[j].toolId != toolId
  {
    if tools != [] && tools[0].toolId != toolId {
      FirstListed(tools[1..], toolId);
      assert forall j :: 0 < j < |tools| ==> tools[j] == tools[1..][j - 1];
    }
  }

  lemma CallAdmitted(cfg: Config, t: Task, toolId: string, semantics: Semantics, live: bool)
    ensures AdmittedTool(cfg, t, toolId, semantics, live).Some? <==> MayCall(cfg, t, toolId, semantics, live)
  {
    if t.binding.Some? { FirstListed(t.binding.value.tools, toolId); }
  }

  /** A new record for this call, not answered yet. */
  ghost predicate Opened(w: World, i: nat, rec: Exec, toolId: string, semantics: Semantics, ownership: Ownership,
                         arguments: string, at: int)
    requires i < |w.tasks|
  {
    var t := w.tasks[i];
    && rec.id == w.nextUid && rec.caller == Caller(t.id, t.activeRevisionId, w.nextUid)
    && rec.tool.toolId == Strip(toolId) && rec.tool.semantics == semantics
    && rec.bindingId == BindingId(t) && rec.ownership == ownership && rec.arguments == arguments && rec.updatedAt == at
    && rec.invocationId.None? && rec.attemptId.None? && rec.response.None? && rec.status == ToolStatus.Pending
  }

  predicate Leaves(reply: Reply)
  {
    match reply case Answered(_) => true case Raised(sent, _) => sent
  }

  /** One remote start, answered: the request went out once, one record stands at the end of its task's
      records, and its identity is held where trackers are attached and work. */
  ghost predicate Started(cfg: Config, w: World, w': World, i: nat, toolId: string, semantics: Semantics,
                          ownership: Ownership, arguments: string, reply: Reply, trackedOk: bool, at: int)
  {
    && Elsewhere(w, w', i) && OneMore(w, w', i)
    && (exists rec :: Opened(w, i, rec, toolId, semantics, ownership, arguments, at)
                      && Newest(w', i) == Answered(rec, reply, Revealed(reply, "invocation_id").Some? && cfg.tracked && !trackedOk, at)
                      && w'.posts == w.posts + if Leaves(reply) then [Post(rec.caller, toolId, arguments, semantics)] else [])
    && var held := if cfg.tracked && trackedOk && Revealed(reply, "invocation_id").Some?
                   then {Revealed(reply, "invocation_id").value} else {};
       && w'.invocations == w.invocations + (if semantics == Action then held else {})
       && w'.sessions == w.sessions + (if semantics == Session then held else {})
  }

  lemma RemoteRest(cfg: Config, w: World, id: nat, i: nat, pre: seq<Effect>, rec: Exec, toolId: string, reply: Reply,
                   trackedOk: bool, at: int)
    requires Find(w.tasks, id) == i < |w.tasks| && !rec.tool.semantics.Query?
    requires pre == [] || exists ref :: pre == [Update(id, MBefore(ref))]
    ensures var s := pre + ([Update(id, MAppend(rec))] + RemoteScript(cfg, id, rec, toolId, reply, trackedOk, at));
            var w' := Finish(w, s);
            var held := if cfg.tracked && trackedOk && Revealed(reply, "invocation_id").Some?
                        then {Revealed(reply, "invocation_id").value} else {};
            && Elsewhere(w, w', i) && (pre == [] ==> w'.tasks[i].beforeRef == w.tasks[i].beforeRef)
            && w'.posts == w.posts + (if Leaves(reply) then [Post(rec.caller, toolId, rec.arguments, rec.tool.semantics)] else [])
            && w'.invocations == w.invocations + (if rec.tool.semantics == Action then held else {})
            && w'.sessions == w.sessions + (if rec.tool.semantics == Session then held else {})
  {
    var p := Post(rec.caller, toolId, rec.arguments, rec.tool.semantics);
    var sent, track := Sent(reply, p), Tracking(cfg, id, rec, reply, trackedOk, at);
    var first, last := Update(id, MAppend(rec)), Update(id, Outcome(rec, reply, at));
    var s := pre + ([first] + RemoteScript(cfg, id, rec, toolId, reply, trackedOk, at));
    var middle := pre + ([first] + sent + [last]);
    RemoteParts(cfg, id, rec, toolId, reply, trackedOk, at);
    assert s == middle + track;
    assert sent == if Leaves(reply) then [Dispatch(p)] else [];
    OutcomeRewrites(rec, reply, at);
    TrackLocal(cfg, id, rec, reply, trackedOk, at);
    TrackHeld(cfg, id, rec, reply, trackedOk, at);
    IdentityIsRevealed(reply, "invocation_id");
    MiddleLocal(id, pre, first, sent, last, track);
    assert rec.tool.semantics == Action || rec.tool.semantics == Session;
    hide *;
    LocalFinish(w, s, id, i);
    HeldConcat(middle, track, Invocations);
    HeldConcat(middle, track, Sessions);
    StartPosts(w, pre, first, sent, last, track);
  }

  lemma MiddleLocal(id: nat, pre: seq<Effect>, first: Effect, sent: seq<Effect>, last: Effect, track: seq<Effect>)
    requires pre == [] || exists ref :: pre == [Update(id, MBefore(ref))]
    requires first.Update? && first.taskId == id && first.m.MAppend?
    requires last.Update? && last.taskId == id && Rewrites(last.m)
    requires sent == [] || exists p :: sent == [Dispatch(p)]
    requires forall e :: e in track ==> Local(e, id) && !e.Dispatch? && (e.Track? ==> !e.tracker.Bindings?)
                                        && !(e.Update? && e.m.MBefore?)
    ensures var middle := pre + ([first] + sent + [last]);
            var s := middle + track;
            && (forall j :: 0 <= j < |s| ==> Local(s[j], id) && (s[j].Track? ==> !s[j].tracker.Bindings?))
            && (pre == [] ==> forall j :: 0 <= j < |s| ==> !(s[j].Update? && s[j].m.MBefore?))
            && HeldBy(middle, Invocations) == {} && HeldBy(middle, Sessions) == {}
            && (forall k :: 0 <= k < |pre| ==> !pre[k].Dispatch?) && (forall k :: 0 <= k < |track| ==> !track[k].Dispatch?)
            && (sent == [] || (sent == [sent[0]] && sent[0].Dispatch?))
  {
    var middle := pre + ([first] + sent + [last]);
    var s := middle + track;
    assert forall j :: 0 <= j < |track| ==> track[j] in track;
    assert forall j :: |middle| <= j < |s| ==> s[j] == track[j - |middle|];
    assert forall j :: 0 <= j < |middle| ==> Local(middle[j], id) && !middle[j].Track?;
    hide Rewrites, HeldBy;
    NothingHeld(middle, Invocations);
    NothingHeld(middle, Sessions);
  }

  lemma TrackLocal(cfg: Config, id: nat, rec: Exec, reply: Reply, trackedOk: bool, at: int)
    ensures forall e :: e in Tracking(cfg, id, rec, reply, trackedOk, at) ==>
              Local(e, id) && !e.Dispatch? && (e.Track? ==> !e.tracker.Bindings?) && !(e.Update? && e.m.MBefore?)
  {}

  lemma TrackHeld(cfg: Config, id: nat, rec: Exec, reply: Reply, trackedOk: bool, at: int)
    requires !rec.tool.semantics.Query?
    ensures var track := Tracking(cfg, id, rec, reply, trackedOk, at);
            var held := if cfg.tracked && trackedOk && Identity(reply, "invocation_id").Some?
                        then {Identity(reply, "invocation_id").value} else {};
            && HeldBy(track, Invocations) == (if rec.tool.semantics == Action then held else {})
            && HeldBy(track, Sessions) == (if rec.tool.semantics == Session then held else {})
  {
    var track := Tracking(cfg, id, rec, reply, trackedOk, at);
    if track != [] { assert track[1..] == []; }
  }

  lemma StartPosts(w: World, pre: seq<Effect>, first: Effect, sent: seq<Effect>, last: Effect, track: seq<Effect>)
    requires sent == [] || (sent == [sent[0]] && sent[0].Dispatch?)
    requires !first.Dispatch? && !last.Dispatch?
    requires (forall k :: 0 <= k < |pre| ==> !pre[k].Dispatch?) && forall k :: 0 <= k < |track| ==> !track[k].Dispatch?
    ensures Finish(w, (pre + ([first] + sent + [last])) + track).posts
            == w.posts + if sent == [] then [] else [sent[0].post]
  {
    var s := (pre + ([first] + sent + [last])) + track;
    assert s == (pre + [first]) + (sent + ([last] + track));
    CutPosts(w, s, |s|);
    DispatchesConcat(pre + [first], sent + ([last] + track));
    DispatchesConcat(sent, [last] + track);
    NoDispatches(pre + [first]);
    NoDispatches([last] + track);
    if sent != [] { assert sent[1..] == []; assert Dispatches(sent) == [sent[0].post]; }
  }

  /** A Session is started exactly when it may be, for the task or shared, as the caller asked. */
  lemma SessionEnds(cfg: Config, w: World, c: Call)
    requires Inv(cfg, w) && c.StartSession?
    ensures var w', i := StepWorld(cfg, w, Done(c)), Find(w.tasks, c.taskId);
            if i < |w.tasks| && !c.ownership.RuntimeOwned? && MayCall(cfg, w.tasks[i], c.toolId, Session, c.live)
               && PathSafe(c.toolId)
            then Started(cfg, w, w', i, c.toolId, Session, c.ownership, c.arguments, c.reply, c.trackedOk, c.at)
                 && w'.tasks[i].beforeRef == w.tasks[i].beforeRef
            else w' == w
  {
    var i := Find(w.tasks, c.taskId);
    SessionStarts(cfg, w, c);
    if i < |w.tasks| { CallAdmitted(cfg, w.tasks[i], c.toolId, Session, c.live); }
    if i == |w.tasks| || c.ownership.RuntimeOwned? || !MayCall(cfg, w.tasks[i], c.toolId, Session, c.live)
       || !PathSafe(c.toolId) {
      hide *;
      NothingFinishes(w);
    } else {
      hide *;
      SessionStarted(cfg, w, c, i);
    }
  }

  lemma SessionStarts(cfg: Config, w: World, c: Call)
    requires c.StartSession?
    ensures StepWorld(cfg, w, Done(c)) == Finish(w, SessionScript(cfg, w, c))
    ensures var i := Find(w.tasks, c.taskId);
            && i <= |w.tasks|
            && (SessionScript(cfg, w, c) != [] ==>
                  i < |w.tasks| && !c.ownership.RuntimeOwned? && PathSafe(c.toolId)
                  && AdmittedTool(cfg, w.tasks[i], c.toolId, Session, c.live).Some?)
  {
    hide AdmittedTool, PathSafe, RemoteScript;
  }

  lemma IntentOpened(w: World, i: nat, toolId: string, semantics: Semantics, sha: string, ownership: Ownership,
                     arguments: string, at: int)
    requires i < |w.tasks|
    ensures var rec := Intent(w.tasks[i], w.nextUid, toolId, semantics, sha, ownership, arguments, at);
            Opened(w, i, rec, toolId, semantics, ownership, arguments, at) && rec.attemptId.None?
            && rec.tool.toolId == Strip(toolId) && rec.tool.semantics == semantics && rec.arguments == arguments
  {
    hide Strip;
  }

  lemma SessionStarted(cfg: Config, w: World, c: Call, i: nat)
    requires Inv(cfg, w) && c.StartSession? && Find(w.tasks, c.taskId) == i < |w.tasks| && !c.ownership.RuntimeOwned?
    requires MayCall(cfg, w.tasks[i], c.toolId, Session, c.live) && PathSafe(c.toolId)
    ensures var w' := Finish(w, SessionScript(cfg, w, c));
            Started(cfg, w, w', i, c.toolId, Session, c.ownership, c.arguments, c.reply, c.trackedOk, c.at)
            && i < |w'.tasks| && w'.tasks[i].beforeRef == w.tasks[i].beforeRef
  {
    var t := w.tasks[i];
    CallAdmitted(cfg, t, c.toolId, Session, c.live);
    hide Inv, RemoteScript, MayCall, PathSafe, EffectOk, Opened, Answered, Revealed, OneMore, Elsewhere, Records, Strip,
         AdmittedTool, Permitted, Cut, Intent, Leaves;
    IntentPermitted(cfg, w, t, c.toolId, Session, c.live, c.ownership, c.arguments, c.at);
    var sha := AdmittedTool(cfg, t, c.toolId, Session, c.live).value;
    var rec := Intent(t, w.nextUid, c.toolId, Session, sha, c.ownership, c.arguments, c.at);
    IntentOpened(w, i, c.toolId, Session, sha, c.ownership, c.arguments, c.at);
    var tail := [Update(t.id, MAppend(rec))] + RemoteScript(cfg, t.id, rec, c.toolId, c.reply, c.trackedOk, c.at);
    assert SessionScript(cfg, w, c) == tail;
    assert [] + tail == tail;
    hide SessionScript, Find;
    SameFind(w, c.taskId, i);
    IntentAllowed(cfg, w, t.id, rec);
    StartEnds(cfg, w, t.id, rec, c.toolId, c.reply, c.trackedOk, c.at);
    RemoteRest(cfg, w, t.id, i, [], rec, c.toolId, c.reply, c.trackedOk, c.at);
    ElsewhereRow(w, Finish(w, tail), i);
    StartedWhole(cfg, w, Finish(w, tail), i, rec, Session, c.ownership, c.toolId, c.arguments, c.reply, c.trackedOk, c.at);
  }

  lemma SameFind(w: World, id: nat, i: nat)
    requires Find(w.tasks, id) == i < |w.tasks|
    ensures w.tasks[i].id == id
  {}

  /** The task records this very call as an Action whose remote state is unknown. */
  ghost predicate HeldBack(t: Task, toolId: string, arguments: string)
  {
    exists k :: 0 <= k < |Records(t)| && Records(t)[k].tool.semantics == Action && Records(t)[k].tool.toolId == toolId
                && Records(t)[k].arguments == arguments && Records(t)[k].status == Unknown
  }

  /** The before evidence, captured once. */
  lemma BeforeEvidence(cfg: Config, w: World, c: Call, i: nat)
    requires Inv(cfg, w) && c.StartAction? && Find(w.tasks, c.taskId) == i < |w.tasks|
    ensures var w0 := Finish(w, Before(w.tasks[i], c));
            && w0 == w.(tasks := w.tasks[i := w.tasks[i].(beforeRef := if w.tasks[i].beforeRef.None? then c.before
                                                                         else w.tasks[i].beforeRef)])
            && Records(w0.tasks[i]) == Records(w.tasks[i]) && Find(w0.tasks, c.taskId) == i && Inv(cfg, w0)
  {
    BeforeCaptured(cfg, w, c);
    var t := w.tasks[i];
    hide Inv, Records;
    if t.beforeRef.None? {
      FinishOne(w, Update(t.id, MBefore(c.before)));
      assert Mutate(t, MBefore(c.before)).revisions == t.revisions;
    } else {
      NothingFinishes(w);
      assert w.tasks[i := t] == w.tasks;
    }
    SameRevisions(t, Finish(w, Before(t, c)).tasks[i]);
  }

  lemma SameRevisions(t: Task, t': Task)
    requires t'.revisions == t.revisions
    ensures Records(t') == Records(t)
  {}

  /** An Action is started exactly when it may be and is not held back; the before evidence is captured
      first, even if the Tool identifier then proves unusable. */
  lemma ActionEnds(cfg: Config, w: World, c: Call)
    requires Inv(cfg, w) && c.StartAction?
    ensures var w', i := StepWorld(cfg, w, Done(c)), Find(w.tasks, c.taskId);
            if i < |w.tasks| && MayCall(cfg, w.tasks[i], c.toolId, Action, c.live)
               && !HeldBack(w.tasks[i], c.toolId, c.arguments)
            then
              && |w'.tasks| == |w.tasks|
              && w'.tasks[i].beforeRef == (if w.tasks[i].beforeRef.None? then c.before else w.tasks[i].beforeRef)
              && if PathSafe(c.toolId)
                 then Started(cfg, w, w', i, c.toolId, Action, TaskOwned, c.arguments, c.reply, c.trackedOk, c.at)
                 else w' == w.(tasks := w.tasks[i := w.tasks[i].(beforeRef := w'.tasks[i].beforeRef)])
            else w' == w
  {
    var s := ActionScript(cfg, w, c);
    var i := Find(w.tasks, c.taskId);
    assert StepWorld(cfg, w, Done(c)) == Finish(w, s);
    if i < |w.tasks| {
      CallAdmitted(cfg, w.tasks[i], c.toolId, Action, c.live);
      assert SameUnknown(w.tasks[i], c.toolId, c.arguments) <==> HeldBack(w.tasks[i], c.toolId, c.arguments);
    }
    if i == |w.tasks| || !MayCall(cfg, w.tasks[i], c.toolId, Action, c.live) || HeldBack(w.tasks[i], c.toolId, c.arguments) {
      hide Inv, MayCall, PathSafe, RemoteScript, SameUnknown, HeldBack;
      assert s == [];
      NothingFinishes(w);
    } else {
      hide Inv, MayCall, SameUnknown, HeldBack, RemoteScript, PathSafe, Started;
      BeforeEvidence(cfg, w, c, i);
      if PathSafe(c.toolId) {
        ActionStarted(cfg, w, c, i);
      } else {
        assert s == Before(w.tasks[i], c);
      }
    }
  }

  lemma ActionIntent(cfg: Config, w: World, c: Call, i: nat) returns (rec: Exec)
    requires Inv(cfg, w) && c.StartAction? && Find(w.tasks, c.taskId) == i < |w.tasks| && PathSafe(c.toolId)
    requires MayCall(cfg, w.tasks[i], c.toolId, Action, c.live) && !SameUnknown(w.tasks[i], c.toolId, c.arguments)
    ensures Opened(w, i, rec, c.toolId, Action, TaskOwned, c.arguments, c.at)
    ensures var t := w.tasks[i];
            var w0 := Finish(w, Before(t, c));
            && Inv(cfg, w0) && EffectOk(cfg, w0, Update(t.id, MAppend(rec))) && Find(w0.tasks, t.id) == i
            && ActionScript(cfg, w, c) ==
               Before(t, c) + ([Update(t.id, MAppend(rec))] + RemoteScript(cfg, t.id, rec, c.toolId, c.reply, c.trackedOk, c.at))
  {
    var t := w.tasks[i];
    CallAdmitted(cfg, t, c.toolId, Action, c.live);
    var sha := AdmittedTool(cfg, t, c.toolId, Action, c.live).value;
    rec := Intent(t, w.nextUid, c.toolId, Action, sha, TaskOwned, c.arguments, c.at);
    hide *;
    IntentOpened(w, i, c.toolId, Action, sha, TaskOwned, c.arguments, c.at);
    SameFind(w, c.taskId, i);
    ActionSteps(cfg, w, c, i, rec);
    BeforeEvidence(cfg, w, c, i);
    ActionAllowed(cfg, w, c, i, rec);
  }

  lemma ActionSteps(cfg: Config, w: World, c: Call, i: nat, rec: Exec)
    requires c.StartAction? && Find(w.tasks, c.taskId) == i < |w.tasks| && PathSafe(c.toolId)
    requires !SameUnknown(w.tasks[i], c.toolId, c.arguments) && w.tasks[i].status.Executing?
    requires AdmittedTool(cfg, w.tasks[i], c.toolId, Action, c.live).Some?
    requires rec == Intent(w.tasks[i], w.nextUid, c.toolId, Action,
                           AdmittedTool(cfg, w.tasks[i], c.toolId, Action, c.live).value, TaskOwned, c.arguments, c.at)
    ensures var t := w.tasks[i];
            ActionScript(cfg, w, c) ==
            Before(t, c) + ([Update(t.id, MAppend(rec))] + RemoteScript(cfg, t.id, rec, c.toolId, c.reply, c.trackedOk, c.at))
  {
    hide Intent, AdmittedTool, RemoteScript, SameUnknown, PathSafe;
  }

  lemma ActionAllowed(cfg: Config, w: World, c: Call, i: nat, rec: Exec)
    requires Inv(cfg, w) && c.StartAction? && Find(w.tasks, c.taskId) == i < |w.tasks|
    requires AdmittedTool(cfg, w.tasks[i], c.toolId, Action, c.live).Some?
    requires rec == Intent(w.tasks[i], w.nextUid, c.toolId, Action,
                           AdmittedTool(cfg, w.tasks[i], c.toolId, Action, c.live).value, TaskOwned, c.arguments, c.at)
    ensures EffectOk(cfg, Finish(w, Before(w.tasks[i], c)), Update(w.tasks[i].id, MAppend(rec)))
  {
    var t := w.tasks[i];
    BeforeCaptured(cfg, w, c);
    IntentFresh(cfg, w, t, c.toolId, Action, c.live, TaskOwned, c.arguments, c.at);
    hide Inv, Mutate, AdmittedTool, Intent, Cut, Legal, Before;
    var w0 := Finish(w, Before(t, c));
    assert BoundRecord(w0.tasks[i], rec);
  }

  lemma ActionStarted(cfg: Config, w: World, c: Call, i: nat)
    requires Inv(cfg, w) && c.StartAction? && Find(w.tasks, c.taskId) == i < |w.tasks| && PathSafe(c.toolId)
    requires MayCall(cfg, w.tasks[i], c.toolId, Action, c.live) && !SameUnknown(w.tasks[i], c.toolId, c.arguments)
    ensures var w' := Finish(w, ActionScript(cfg, w, c));
            && Started(cfg, w, w', i, c.toolId, Action, TaskOwned, c.arguments, c.reply, c.trackedOk, c.at)
            && |w'.tasks| == |w.tasks|
            && w'.tasks[i].beforeRef == (if w.tasks[i].beforeRef.None? then c.before else w.tasks[i].beforeRef)
  {
    var t := w.tasks[i];
    var before := Before(t, c);
    var rec := ActionIntent(cfg, w, c, i);
    IntentSays(w, i, rec, c);
    BeforeEvidence(cfg, w, c, i);
    var tail := [Update(t.id, MAppend(rec))] + RemoteScript(cfg, t.id, rec, c.toolId, c.reply, c.trackedOk, c.at);
    var w0 := Finish(w, before);
    var w' := Finish(w0, tail);
    SameFind(w, c.taskId, i);
    hide *;
    BeforeOne(t, c);
    StartEnds(cfg, w0, t.id, rec, c.toolId, c.reply, c.trackedOk, c.at);
    RemoteRest(cfg, w0, t.id, i, [], rec, c.toolId, c.reply, c.trackedOk, c.at);
    RemoteRest(cfg, w, t.id, i, before, rec, c.toolId, c.reply, c.trackedOk, c.at);
    FinishConcat(w, before, tail);
    assert [] + tail == tail;
    BeforeSameRecords(w, w0, w', i);
    ElsewhereRow(w, w', i);
    StartedWhole(cfg, w, w', i, rec, Action, TaskOwned, c.toolId, c.arguments, c.reply, c.trackedOk, c.at);
  }

  lemma BeforeOne(t: Task, c: Call)
    requires c.StartAction?
    ensures Before(t, c) == [] || exists ref :: Before(t, c) == [Update(t.id, MBefore(ref))]
  {}

  lemma StartedWhole(cfg: Config, w: World, w': World, i: nat, rec: Exec, semantics: Semantics, ownership: Ownership,
                     toolId: string, arguments: string, reply: Reply, trackedOk: bool, at: int)
    requires Elsewhere(w, w', i) && OneMore(w, w', i) && i < |w.tasks|
    requires Opened(w, i, rec, toolId, semantics, ownership, arguments, at)
    requires Newest(w', i) == Answered(rec, reply, Revealed(reply, "invocation_id").Some? && cfg.tracked && !trackedOk, at)
    requires w'.posts == w.posts + if Leaves(reply) then [Post(rec.caller, toolId, arguments, semantics)] else []
    requires var held := if cfg.tracked && trackedOk && Revealed(reply, "invocation_id").Some?
                         then {Revealed(reply, "invocation_id").value} else {};
             && w'.invocations == w.invocations + (if semantics == Action then held else {})
             && w'.sessions == w.sessions + (if semantics == Session then held else {})
    ensures Started(cfg, w, w', i, toolId, semantics, ownership, arguments, reply, trackedOk, at)
  {
    hide Elsewhere, Opened, Answered, Revealed, Leaves, Records;
  }

  lemma IntentSays(w: World, i: nat, rec: Exec, c: Call)
    requires i < |w.tasks| && c.StartAction? && Opened(w, i, rec, c.toolId, Action, TaskOwned, c.arguments, c.at)
    ensures rec.tool.toolId == Strip(c.toolId) && rec.attemptId.None? && rec.tool.semantics == Action
    ensures rec.arguments == c.arguments
  {}

  /** A Query is sent exactly when it may be, and leaves one record: succeeded with the answer, or unknown. */
  lemma QueryEnds(cfg: Config, w: World, c: Call)
    requires Inv(cfg, w) && c.InvokeQuery?
    ensures var w', i := StepWorld(cfg, w, Done(c)), Find(w.tasks, c.taskId);
            if i < |w.tasks| && MayCall(cfg, w.tasks[i], c.toolId, Query, c.live) && PathSafe(c.toolId)
            then
              && OneMore(w, w', i) && Elsewhere(w, w', i) && w'.tasks[i].beforeRef == w.tasks[i].beforeRef
              && w'.invocations == w.invocations && w'.sessions == w.sessions
              && exists rec ::
                   && Opened(w, i, rec, c.toolId, Query, TaskOwned, c.arguments, c.at)
                   && Newest(w', i) == (if c.reply.Answered?
                                        then rec.(status := ToolStatus.Succeeded, response := Some(c.reply.response))
                                        else rec.(status := Unknown))
                   && w'.posts == w.posts + if Leaves(c.reply) then [Post(rec.caller, c.toolId, c.arguments, Query)] else []
            else w' == w
  {
    var s := QueryScript(cfg, w, c);
    var i := Find(w.tasks, c.taskId);
    assert StepWorld(cfg, w, Done(c)) == Finish(w, s);
    if i < |w.tasks| { CallAdmitted(cfg, w.tasks[i], c.toolId, Query, c.live); }
    if s == [] {
      hide Inv, MayCall, PathSafe;
      NothingFinishes(w);
    } else {
      var t := w.tasks[i];
      QueryParts(cfg, w, c);
      var rec := s[0].m.rec;
      assert Opened(w, i, rec, c.toolId, Query, TaskOwned, c.arguments, c.at);
      hide MayCall, PathSafe, QueryScript;
      QueryRecord(cfg, w, c, i, rec);
      QueryRest(cfg, w, c, i, rec);
    }
  }

  lemma QueryRest(cfg: Config, w: World, c: Call, i: nat, rec: Exec)
    requires c.InvokeQuery? && Find(w.tasks, c.taskId) == i < |w.tasks|
    requires QueryScript(cfg, w, c) == [Update(w.tasks[i].id, MAppend(rec))]
             + (Sent(c.reply, Post(rec.caller, c.toolId, c.arguments, Query)) + [Update(w.tasks[i].id, QueryOutcome(rec, c.reply, c.at))])
    ensures var w' := Finish(w, QueryScript(cfg, w, c));
            && Elsewhere(w, w', i) && |w'.tasks| == |w.tasks| && w'.tasks[i].beforeRef == w.tasks[i].beforeRef
            && w'.invocations == w.invocations && w'.sessions == w.sessions
            && w'.posts == w.posts + if Leaves(c.reply) then [Post(rec.caller, c.toolId, c.arguments, Query)] else []
  {
    var t := w.tasks[i];
    var p := Post(rec.caller, c.toolId, c.arguments, Query);
    var first, last := Update(t.id, MAppend(rec)), Update(t.id, QueryOutcome(rec, c.reply, c.at));
    var sent := Sent(c.reply, p);
    assert sent == if Leaves(c.reply) then [Dispatch(p)] else [];
    assert Rewrites(last.m);
    hide Rewrites, QueryOutcome, Sent, Elsewhere, Cut;
    MiddleLocal(t.id, [], first, sent, last, []);
    assert QueryScript(cfg, w, c) == ([] + ([first] + sent + [last])) + [];
    hide QueryScript;
    LocalFinish(w, ([] + ([first] + sent + [last])) + [], t.id, i);
    assert ([] + ([first] + sent + [last])) + [] == [] + ([first] + sent + [last]);
    StartPosts(w, [], first, sent, last, []);
  }

  lemma QueryRecord(cfg: Config, w: World, c: Call, i: nat, rec: Exec)
    requires Inv(cfg, w) && c.InvokeQuery? && Find(w.tasks, c.taskId) == i < |w.tasks| && QueryScript(cfg, w, c) != []
    requires QueryScript(cfg, w, c)[0] == Update(w.tasks[i].id, MAppend(rec))
    requires Opened(w, i, rec, c.toolId, Query, TaskOwned, c.arguments, c.at)
    ensures var w' := Finish(w, QueryScript(cfg, w, c));
            && OneMore(w, w', i)
            && Newest(w', i) == (if c.reply.Answered?
                                 then rec.(status := ToolStatus.Succeeded, response := Some(c.reply.response))
                                 else rec.(status := Unknown))
  {
    hide Inv, Undispatched, Apply, QueryScript, Permitted, Sent, EffectOk, Records, Mutate, OneMore;
    var s := QueryScript(cfg, w, c);
    QueryParts(cfg, w, c);
    var t := w.tasks[i];
    var p := Post(rec.caller, c.toolId, c.arguments, Query);
    var m := QueryOutcome(rec, c.reply, c.at);
    IntentPermitted(cfg, w, t, c.toolId, Query, c.live, TaskOwned, c.arguments, c.at);
    assert EffectOk(cfg, w, s[0]) by { IntentAllowed(cfg, w, t.id, rec); }
    IntentOneMore(cfg, w, t.id, rec);
    IntentUndispatched(cfg, w, t.id, rec, c.toolId);
    var w1 := Apply(w, s[0]);
    Owning.AnswerPermitted(cfg, w1, t.id, rec, c.toolId, c.reply, c.at);
    UndispatchedRow(w1, t.id, rec, c.toolId);
    SentLegal(cfg, w1, c.reply, p);
    var w2 := Finish(w1, Sent(c.reply, p));
    SameRowsOneMore(w, w1, w2, i);
    UpdateOk(cfg, w1, w2, t.id, m);
    RewriteNewest(cfg, w, w2, t.id, m);
    assert s == [s[0]] + (Sent(c.reply, p) + [Update(t.id, m)]);
    FinishConcat(w, [s[0]], Sent(c.reply, p) + [Update(t.id, m)]);
    FinishConcat(w1, Sent(c.reply, p), [Update(t.id, m)]);
    FinishOne(w, s[0]);
    FinishOne(w2, Update(t.id, m));
  }

  lemma IntentAllowed(cfg: Config, w: World, id: nat, rec: Exec)
    requires Find(w.tasks, id) < |w.tasks|
    requires Permitted(cfg, w.tasks[Find(w.tasks, id)], w.nextUid, MAppend(rec))
    ensures EffectOk(cfg, w, Update(id, MAppend(rec)))
  {}
}
