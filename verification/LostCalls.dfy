/** Ownership in lives that lose calls: what a death or an abandoned call can leave off track, and what
    recovery takes hold of again. */
module LostCalls {
  import opened Common
  import opened AgentTask
  import opened Protocol
  import opened TaskInvariants
  import opened WorldInvariants
  import opened Runs
  import opened Retries
  import opened Ownership

  /** Held although its end is proved, or not held although it is not. */
  predicate OffTrack(w: World, i: nat, j: nat)
    requires RemoteAt(w, i, j)
  {
    InSet(w, i, j) <==> Ended(w, i, j)
  }

  // ---- Effects about one execution ---------------------------------------------------------------

  /** Apart from the executions called `x`, nothing known changed, and nothing was lost sight of. */
  ghost predicate Elsewhere(w: World, w': World, x: set<string>)
  {
    && (forall a: nat, b: nat :: RemoteAt(w', a, b) && RemoteId(w', a, b) !in x ==>
          RemoteAt(w, a, b) && SameRemote(Records(w.tasks[a])[b], Records(w'.tasks[a])[b]))
    && (forall a: nat, b: nat :: RemoteAt(w, a, b) ==> RemoteAt(w', a, b) && RemoteId(w', a, b) == RemoteId(w, a, b))
    && (forall id :: id !in x ==> (id in w'.invocations <==> id in w.invocations) && (id in w'.sessions <==> id in w.sessions))
  }

  /** The effect touches no execution, or only the one called `x`, old or new. */
  ghost predicate About(w: World, e: Effect, x: string)
  {
    match e
    case Insert(t) => Records(t) == []
    case Update(id, m) => Indifferent(m) || RewritesAbout(w, id, m, x)
    case Track(k, id) => k.Bindings? || id == x
    case Untrack(k, id) => k.Bindings? || id == x
    case _ => true
  }

  ghost predicate RewritesAbout(w: World, id: nat, m: Mutation, x: string)
  {
    var i := Find(w.tasks, id);
    Rewrites(m) && i < |w.tasks|
    && var k := IndexOf(Records(w.tasks[i]), m.id);
       k < |Records(w.tasks[i])|
       && var r := Rewritten(Records(w.tasks[i])[k], m);
          Remote(r) ==> r.invocationId == Some(x) && (RemoteAt(w, i, k) || Unused(w, x))
  }

  ghost predicate AllAbout(w: World, effects: seq<Effect>, x: string)
    decreases |effects|
  {
    effects == [] || (About(w, effects[0], x) && AllAbout(Apply(w, effects[0]), effects[1..], x))
  }

  lemma {:induction false} AllAboutConcat(w: World, a: seq<Effect>, b: seq<Effect>, x: string)
    requires AllAbout(w, a, x) && AllAbout(Finish(w, a), b, x)
    ensures AllAbout(w, a + b, x)
    decreases |a|
  {
    hide About, Apply;
    if a == [] {
      assert a + b == b;
    } else {
      assert (a + b)[1..] == a[1..] + b;
      AllAboutConcat(Apply(w, a[0]), a[1..], b, x);
    }
  }

  lemma {:induction false} HarmlessAbout(w: World, effects: seq<Effect>, x: string)
    requires forall k :: 0 <= k < |effects| ==> Harmless(effects[k])
    ensures AllAbout(w, effects, x)
    decreases |effects|
  {
    hide Apply, RewritesAbout;
    if effects != [] { HarmlessAbout(Apply(w, effects[0]), effects[1..], x); }
  }

  lemma ElsewhereSame(w: World)
    ensures forall x :: Elsewhere(w, w, x)
  {}

  lemma ElsewhereTransitive(a: World, b: World, c: World, x: set<string>, y: set<string>)
    requires Elsewhere(a, b, x) && Elsewhere(b, c, y)
    ensures Elsewhere(a, c, x + y)
  {
    hide Records, Remote;
  }

  /** Away from `x`, what is off track stays so, and nothing else gets there. */
  lemma ElsewhereOffTrack(w: World, w': World, x: set<string>, i: nat, j: nat)
    requires Elsewhere(w, w', x) && RemoteAt(w, i, j) && RemoteId(w, i, j) !in x
    ensures RemoteAt(w', i, j) && (OffTrack(w', i, j) <==> OffTrack(w, i, j))
  {
    assert RemoteAt(w', i, j) && RemoteId(w', i, j) == RemoteId(w, i, j);
  }

  lemma ElsewhereOwns(w: World, w': World, x: set<string>, off: set<string>)
    requires Elsewhere(w, w', x) && Owns(w, off) && OwnIds(w')
    ensures Owns(w', off + x)
  {
    hide Records, Remote;
  }

  lemma KnownStaysKnown(w: World, w': World)
    requires Grows(w, w')
    ensures forall a: nat, b: nat :: RemoteAt(w, a, b) ==> RemoteAt(w', a, b) && RemoteId(w', a, b) == RemoteId(w, a, b)
  {
    forall a: nat, b: nat | RemoteAt(w, a, b) ensures RemoteAt(w', a, b) && RemoteId(w', a, b) == RemoteId(w, a, b) {
      assert Evolves(w.tasks[a], w'.tasks[a]);
      assert SameRecord(Records(w.tasks[a])[b], Records(w'.tasks[a])[b]);
    }
  }

  lemma ChangedElsewhere(w: World, w': World, i: nat, k: nat, x: string)
    requires Grows(w, w') && ChangedAt(w, w', i, k) && SameSets(w, w')
    requires RemoteAt(w', i, k) ==> RemoteId(w', i, k) == x && (RemoteAt(w, i, k) || Unused(w, x))
    ensures Elsewhere(w, w', {x}) && (OwnIds(w) ==> OwnIds(w'))
  {
    KnownStaysKnown(w, w');
    if OwnIds(w) { OwnIdsKept(w, w', i, k); }
    hide Grows, Records, Remote, OwnIds;
  }

  lemma SetElsewhere(w: World, w': World, x: string)
    requires w'.tasks == w.tasks
    requires forall id :: id != x ==>
               (id in w'.invocations <==> id in w.invocations) && (id in w'.sessions <==> id in w.sessions)
    ensures Elsewhere(w, w', {x}) && (OwnIds(w) ==> OwnIds(w'))
  {
    assert forall a: nat, b: nat :: RemoteAt(w', a, b) <==> RemoteAt(w, a, b);
    assert forall a: nat, b: nat :: RemoteAt(w, a, b) ==> RemoteId(w', a, b) == RemoteId(w, a, b);
    hide Records, Remote;
  }

  lemma UpdateElsewhere(cfg: Config, w: World, id: nat, m: Mutation, x: string)
    requires Inv(cfg, w) && EffectOk(cfg, w, Update(id, m)) && About(w, Update(id, m), x)
    requires Grows(w, Apply(w, Update(id, m)))
    ensures Elsewhere(w, Apply(w, Update(id, m)), {x}) && (OwnIds(w) ==> OwnIds(Apply(w, Update(id, m))))
  {
    hide Inv, Elsewhere, OwnIds, ChangedAt, Grows, EffectOk, Apply, RewritesAbout, Unused;
    if Indifferent(m) {
      IndifferentChanges(cfg, w, id, m);
      FewRows(w, Apply(w, Update(id, m)), |w.tasks|);
      ChangedElsewhere(w, Apply(w, Update(id, m)), |w.tasks|, 0, x);
    } else {
      RewriteAbout(cfg, w, id, m, x);
    }
  }

  lemma EffectElsewhere(cfg: Config, w: World, e: Effect, x: string)
    requires Inv(cfg, w) && EffectOk(cfg, w, e) && About(w, e, x)
    ensures Elsewhere(w, Apply(w, e), {x}) && (OwnIds(w) ==> OwnIds(Apply(w, e)))
  {
    ApplyInv(cfg, w, e);
    hide Inv, Elsewhere, OwnIds, Grows, EffectOk, About, Apply;
    if e.Update? {
      UpdateElsewhere(cfg, w, e.taskId, e.m, x);
    } else {
      OtherElsewhere(w, e, x);
    }
  }

  lemma OtherElsewhere(w: World, e: Effect, x: string)
    requires !e.Update? && About(w, e, x)
    ensures Elsewhere(w, Apply(w, e), {x}) && (OwnIds(w) ==> OwnIds(Apply(w, e)))
  {
    hide Elsewhere, OwnIds, RemoteAt, RemoteId;
    if e.Insert? {
      InsertRows(w, e.task);
      SameRowsElsewhere(w, Apply(w, e), x);
    } else {
      SetElsewhere(w, Apply(w, e), x);
    }
  }

  lemma FewRows(w: World, w': World, i: nat)
    requires ChangedAt(w, w', i, 0) && i == |w.tasks|
    ensures !RemoteAt(w', i, 0)
  {}

  lemma RewriteAbout(cfg: Config, w: World, id: nat, m: Mutation, x: string)
    requires Inv(cfg, w) && EffectOk(cfg, w, Update(id, m)) && !Indifferent(m) && RewritesAbout(w, id, m, x)
    requires Grows(w, Apply(w, Update(id, m)))
    ensures Elsewhere(w, Apply(w, Update(id, m)), {x}) && (OwnIds(w) ==> OwnIds(Apply(w, Update(id, m))))
  {
    var i := Find(w.tasks, id);
    var k := IndexOf(Records(w.tasks[i]), m.id);
    RewriteChanges(cfg, w, id, m);
    hide Inv, EffectOk, Grows, Elsewhere, OwnIds, Apply, ChangedAt, Unused, Rewritten;
    ChangedElsewhere(w, Apply(w, Update(id, m)), i, k, x);
  }

  lemma InsertRows(w: World, t: Task)
    requires Records(t) == []
    ensures var w' := Apply(w, Insert(t));
            && (forall a: nat, b: nat :: RemoteAt(w', a, b) <==> RemoteAt(w, a, b))
            && (forall a: nat, b: nat :: RemoteAt(w, a, b) ==> a < |w'.tasks| && w'.tasks[a] == w.tasks[a])
  {}

  lemma SameRowsElsewhere(w: World, w': World, x: string)
    requires SameSets(w, w') && forall a: nat, b: nat :: RemoteAt(w', a, b) <==> RemoteAt(w, a, b)
    requires forall a: nat, b: nat :: RemoteAt(w, a, b) ==> a < |w'.tasks| && w'.tasks[a] == w.tasks[a]
    ensures Elsewhere(w, w', {x}) && (OwnIds(w) ==> OwnIds(w'))
  {
    assert forall a: nat, b: nat :: RemoteAt(w, a, b) ==> RemoteId(w', a, b) == RemoteId(w, a, b);
    hide Records, Remote;
  }

  /** Cut anywhere, a script about one execution changes nothing elsewhere. */
  lemma {:induction false} CutElsewhere(cfg: Config, w: World, effects: seq<Effect>, n: nat, x: string)
    requires Inv(cfg, w) && Legal(cfg, w, effects) && AllAbout(w, effects, x)
    ensures Elsewhere(w, Cut(w, effects, n), {x}) && (OwnIds(w) ==> OwnIds(Cut(w, effects, n)))
    decreases |effects|
  {
    hide Inv, EffectOk, About, Apply, Elsewhere, OwnIds, Grows;
    if effects == [] || n == 0 {
      ElsewhereSame(w);
    } else {
      var w1 := Apply(w, effects[0]);
      EffectElsewhere(cfg, w, effects[0], x);
      ApplyInv(cfg, w, effects[0]);
      CutElsewhere(cfg, w1, effects[1..], n - 1, x);
      ElsewhereTransitive(w, w1, Cut(w, effects, n), {x}, {x});
      assert {x} + {x} == {x};
    }
  }

  // ---- The one execution a call is about -----------------------------------------------------------

  function Subject(c: Call): string
  {
    match c
    case StartAction(_, _, _, _, _, reply, _, _) => Identity(reply, "invocation_id").GetOr("")
    case StartSession(_, _, _, _, _, reply, _, _) => Identity(reply, "invocation_id").GetOr("")
    case ObserveAction(_, inv, _, _, _) => inv
    case ObserveSession(_, inv, _, _, _) => inv
    case _ => ""
  }

  lemma SentAbout(w: World, reply: Reply, p: Post, x: string)
    ensures AllAbout(w, Sent(reply, p), x)
  {
    HarmlessAbout(w, Sent(reply, p), x);
  }

  lemma OneAbout(w: World, e: Effect, x: string)
    requires About(w, e, x)
    ensures AllAbout(w, [e], x)
  {
    hide About, Apply;
    assert [e][1..] == [];
  }

  /** The recorded outcome of a start, and the tracker write after it. */
  lemma OutcomeAbout(cfg: Config, w: World, id: nat, rec: Exec, toolId: string, reply: Reply, at: int, x: string)
    requires Undispatched(w, id, rec, toolId) && NewIdentity(w, reply)
    requires x == Identity(reply, "invocation_id").GetOr("")
    ensures AllAbout(w, [Update(id, Outcome(rec, reply, at))] + Tracking(cfg, id, rec, reply, true, at), x)
  {
    UndispatchedRecord(w, id, rec, toolId);
    var e := Update(id, Outcome(rec, reply, at));
    var track := Tracking(cfg, id, rec, reply, true, at);
    hide StrField, Records, Undispatched;
    assert About(w, e, x);
    OneAbout(w, e, x);
    FinishOne(w, e);
    hide Outcome, Apply;
    if track != [] {
      OneAbout(Apply(w, e), track[0], x);
    }
    AllAboutConcat(w, [e], track, x);
  }

  lemma RemoteAbout(cfg: Config, w: World, id: nat, rec: Exec, toolId: string, reply: Reply, at: int, x: string)
    requires Inv(cfg, w) && Undispatched(w, id, rec, toolId) && NewIdentity(w, reply)
    requires x == Identity(reply, "invocation_id").GetOr("")
    ensures AllAbout(w, RemoteScript(cfg, id, rec, toolId, reply, true, at), x)
  {
    var p := Post(rec.caller, toolId, rec.arguments, rec.tool.semantics);
    var rest := [Update(id, Outcome(rec, reply, at))] + Tracking(cfg, id, rec, reply, true, at);
    RemoteParts(cfg, id, rec, toolId, reply, true, at);
    OutcomePermitted(cfg, w, id, rec, toolId, reply, at);
    hide Inv, Undispatched, RemoteScript, Outcome, Tracking, Permitted, Sent, Records, NewIdentity;
    SentLegal(cfg, w, reply, p);
    SentAbout(w, reply, p, x);
    OutcomeAbout(cfg, w, id, rec, toolId, reply, at, x);
    SameRowsAbout(w, Finish(w, Sent(reply, p)), rest, x);
    AllAboutConcat(w, Sent(reply, p), rest, x);
  }

  /** Whom effects are about depends on the rows only. */
  lemma {:induction false} SameRowsAbout(w: World, w1: World, effects: seq<Effect>, x: string)
    requires w1.tasks == w.tasks && AllAbout(w, effects, x)
    ensures AllAbout(w1, effects, x)
    decreases |effects|
  {
    if effects != [] {
      AboutRows(w, w1, effects[0], x);
      ApplyRows(w, w1, effects[0]);
      hide About, Apply;
      SameRowsAbout(Apply(w, effects[0]), Apply(w1, effects[0]), effects[1..], x);
    }
  }

  lemma ApplyRows(w: World, w1: World, e: Effect)
    requires w1.tasks == w.tasks
    ensures Apply(w1, e).tasks == Apply(w, e).tasks
  {}

  lemma AboutRows(w: World, w1: World, e: Effect, x: string)
    requires w1.tasks == w.tasks && About(w, e, x)
    ensures About(w1, e, x)
  {
    hide Records, Remote, Rewritten;
    assert forall a: nat, b: nat :: RemoteAt(w1, a, b) <==> RemoteAt(w, a, b);
    assert forall a: nat, b: nat :: RemoteAt(w, a, b) ==> RemoteId(w1, a, b) == RemoteId(w, a, b);
  }

  /** From the committed intent to the end of a start. */
  lemma StartAbout(cfg: Config, w: World, id: nat, rec: Exec, toolId: string, reply: Reply, at: int, x: string)
    requires Inv(cfg, w) && EffectOk(cfg, w, Update(id, MAppend(rec))) && rec.tool.toolId == Strip(toolId)
    requires NewIdentity(w, reply) && x == Identity(reply, "invocation_id").GetOr("")
    ensures AllAbout(w, [Update(id, MAppend(rec))] + RemoteScript(cfg, id, rec, toolId, reply, true, at), x)
  {
    hide Inv, EffectOk, RemoteScript, Undispatched, ChangedAt, Apply;
    var e := Update(id, MAppend(rec));
    IntentUndispatched(cfg, w, id, rec, toolId);
    IndifferentChanges(cfg, w, id, MAppend(rec));
    if Identity(reply, "invocation_id").Some? { UnusedKept(w, Apply(w, e), Identity(reply, "invocation_id").value); }
    OneAbout(w, e, x);
    FinishOne(w, e);
    RemoteAbout(cfg, Apply(w, e), id, rec, toolId, reply, at, x);
    AllAboutConcat(w, [e], RemoteScript(cfg, id, rec, toolId, reply, true, at), x);
  }

  lemma SessionAbout(cfg: Config, w: World, c: Call)
    requires Inv(cfg, w) && c.StartSession? && NewIdentity(w, c.reply) && c.trackedOk
    ensures AllAbout(w, SessionScript(cfg, w, c), Subject(c))
  {
    hide Inv, Mutate, RemoteScript, Permitted, StrField;
    var s := SessionScript(cfg, w, c);
    if s != [] {
      var t := w.tasks[Find(w.tasks, c.taskId)];
      IntentPermitted(cfg, w, t, c.toolId, Session, c.live, c.ownership, c.arguments, c.at);
      StartAbout(cfg, w, t.id, s[0].m.rec, c.toolId, c.reply, c.at, Subject(c));
    }
  }

  lemma BeforeAbout(cfg: Config, w: World, c: Call)
    requires Inv(cfg, w) && c.StartAction? && Find(w.tasks, c.taskId) < |w.tasks| && NewIdentity(w, c.reply)
    ensures var before := Before(w.tasks[Find(w.tasks, c.taskId)], c);
            AllAbout(w, before, Subject(c)) && NewIdentity(Finish(w, before), c.reply)
  {
    var t := w.tasks[Find(w.tasks, c.taskId)];
    var s := Before(t, c);
    hide Inv, ChangedAt, StrField;
    if s == [] {
      assert Finish(w, s) == w;
    } else {
      var m := MBefore(c.before);
      assert EffectOk(cfg, w, Update(t.id, m));
      OneAbout(w, Update(t.id, m), Subject(c));
      IndifferentChanges(cfg, w, t.id, m);
      FinishOne(w, Update(t.id, m));
      if Identity(c.reply, "invocation_id").Some? {
        UnusedKept(w, Apply(w, Update(t.id, m)), Identity(c.reply, "invocation_id").value);
      }
    }
  }

  lemma ActionAbout(cfg: Config, w: World, c: Call)
    requires Inv(cfg, w) && c.StartAction? && NewIdentity(w, c.reply) && c.trackedOk
    ensures AllAbout(w, ActionScript(cfg, w, c), Subject(c))
  {
    hide Inv, Mutate, RemoteScript, SameUnknown, Legal, NewIdentity, StrField;
    var s := ActionScript(cfg, w, c);
    if s != [] {
      var i := Find(w.tasks, c.taskId);
      var t := w.tasks[i];
      var before := Before(t, c);
      BeforeCaptured(cfg, w, c);
      BeforeAbout(cfg, w, c);
      if PathSafe(c.toolId) {
        var w0 := Finish(w, before);
        var rec := s[|before|].m.rec;
        IntentFresh(cfg, w, t, c.toolId, Action, c.live, TaskOwned, c.arguments, c.at);
        assert BoundRecord(w0.tasks[i], rec);
        assert EffectOk(cfg, w0, Update(t.id, MAppend(rec)));
        var tail := [Update(t.id, MAppend(rec))] + RemoteScript(cfg, t.id, rec, c.toolId, c.reply, c.trackedOk, c.at);
        assert s == before + tail;
        hide EffectOk, BoundRecord;
        StartAbout(cfg, w0, t.id, rec, c.toolId, c.reply, c.at, Subject(c));
        AllAboutConcat(w, before, tail, Subject(c));
      }
    }
  }

  lemma QueryAbout(cfg: Config, w: World, c: Call)
    requires Inv(cfg, w) && c.InvokeQuery?
    ensures AllAbout(w, QueryScript(cfg, w, c), "")
  {
    hide Inv, Mutate, Undispatched, Apply, QueryScript, QueryOutcome, Permitted, Sent;
    var s := QueryScript(cfg, w, c);
    if s != [] {
      QueryParts(cfg, w, c);
      var t := w.tasks[Find(w.tasks, c.taskId)];
      var rec := s[0].m.rec;
      var p := Post(rec.caller, c.toolId, c.arguments, Query);
      IntentPermitted(cfg, w, t, c.toolId, Query, c.live, TaskOwned, c.arguments, c.at);
      IntentUndispatched(cfg, w, t.id, rec, c.toolId);
      var w1 := Apply(w, s[0]);
      var last := Update(t.id, QueryOutcome(rec, c.reply, c.at));
      AnsweredAbout(cfg, w1, t.id, rec, c.toolId, c.reply, c.at);
      var rest := Sent(c.reply, p) + [last];
      assert s == [s[0]] + rest;
      OneAbout(w, s[0], "");
      FinishOne(w, s[0]);
      AllAboutConcat(w, [s[0]], rest, "");
    }
  }

  lemma AnsweredAbout(cfg: Config, w: World, id: nat, rec: Exec, toolId: string, reply: Reply, at: int)
    requires Inv(cfg, w) && Undispatched(w, id, rec, toolId) && rec.tool.semantics.Query?
    ensures AllAbout(w, Sent(reply, Post(rec.caller, toolId, rec.arguments, rec.tool.semantics))
                        + [Update(id, QueryOutcome(rec, reply, at))], "")
  {
    var p := Post(rec.caller, toolId, rec.arguments, rec.tool.semantics);
    var last := Update(id, QueryOutcome(rec, reply, at));
    UndispatchedRecord(w, id, rec, toolId);
    AnswerPermitted(cfg, w, id, rec, toolId, reply, at);
    RewrittenTool(rec, QueryOutcome(rec, reply, at));
    hide Inv, Undispatched, Sent, Records, Permitted, QueryOutcome, Rewritten, EffectOk;
    assert About(w, last, "");
    hide About;
    SentLegal(cfg, w, reply, p);
    SentAbout(w, reply, p, "");
    OneAbout(w, last, "");
    SameRowsAbout(w, Finish(w, Sent(reply, p)), [last], "");
    AllAboutConcat(w, Sent(reply, p), [last], "");
  }

  lemma ObserveAbout(cfg: Config, w: World, taskId: nat, inv: string, semantics: Semantics, response: Dict, dropped: bool,
                     at: int)
    requires Inv(cfg, w) && !semantics.Query?
    ensures AllAbout(w, ObserveScript(cfg, w, taskId, inv, semantics, response, dropped, at), inv)
  {
    var s := ObserveScript(cfg, w, taskId, inv, semantics, response, dropped, at);
    if s != [] {
      ObserveStep(cfg, w, taskId, inv, semantics, response, dropped, at);
      assert About(w, s[0], inv) by { hide Inv, StatusOf, Records, Definite; }
      assert |s| == 2 ==> s[1] == Untrack(TrackerOf(semantics), inv);
      hide Inv, ObserveScript, About, AllAbout, Apply;
      OneAbout(w, s[0], inv);
      if |s| == 2 {
        FinishOne(w, s[0]);
        UntrackAbout(Apply(w, s[0]), TrackerOf(semantics), inv);
        assert s == [s[0]] + [s[1]];
        AllAboutConcat(w, [s[0]], [s[1]], inv);
      } else {
        assert s == [s[0]];
      }
    }
  }

  lemma UntrackAbout(w: World, k: Tracker, x: string)
    ensures AllAbout(w, [Untrack(k, x)], x)
  {
    OneAbout(w, Untrack(k, x), x);
  }

  /** Every call but recovery is about one execution at most. */
  lemma CallAbout(cfg: Config, w: World, c: Call)
    requires Inv(cfg, w) && Benign(w, c) && !c.Reconcile?
    ensures AllAbout(w, Script(cfg, w, c), Subject(c))
  {
    hide Inv, QueryScript, ActionScript, SessionScript, ObserveScript, NewIdentity, About, StrField;
    if Plainly(c) {
      PlainlyHarmless(cfg, w, c);
      HarmlessAbout(w, Script(cfg, w, c), Subject(c));
    } else {
      match c
      case InvokeQuery(_, _, _, _, _, _) => QueryAbout(cfg, w, c);
      case StartAction(_, _, _, _, _, _, _, _) => ActionAbout(cfg, w, c);
      case StartSession(_, _, _, _, _, _, _, _) => SessionAbout(cfg, w, c);
      case ObserveAction(id, inv, response, dropped, at) => ObserveAbout(cfg, w, id, inv, Action, response, dropped, at);
      case ObserveSession(id, inv, response, dropped, at) => ObserveAbout(cfg, w, id, inv, Session, response, dropped, at);
    }
  }

  // ---- Recovery --------------------------------------------------------------------------------

  /** The identities recovery takes hold of again. */
  function Retaken(records: seq<Exec>): set<string>
  {
    if records == [] then {}
    else (if Retracked(records[0]) then {records[0].invocationId.value} else {}) + Retaken(records[1..])
  }

  lemma {:induction false} LeftOffExactly(off: set<string>, records: seq<Exec>)
    ensures LeftOff(off, records) == off - Retaken(records)
  {
    if records != [] {
      LeftOffExactly(if Retracked(records[0]) then off - {records[0].invocationId.value} else off, records[1..]);
    }
  }

  lemma {:induction false} RetakenExactly(records: seq<Exec>, id: string)
    ensures id in Retaken(records) <==>
            exists k :: 0 <= k < |records| && Retracked(records[k]) && records[k].invocationId.value == id
  {
    if records != [] {
      RetakenExactly(records[1..], id);
      assert records == [records[0]] + records[1..];
      if id in Retaken(records[1..]) {
        var k :| 0 <= k < |records[1..]| && Retracked(records[1..][k]) && records[1..][k].invocationId.value == id;
        assert records[k + 1] == records[1..][k];
      }
    }
  }

  lemma GiveUpAbout(cfg: Config, w: World, taskId: nat, base: nat, records: seq<Exec>, m: Mutation, x: string)
    requires Inv(cfg, w) && Recovering(w, taskId, base, records) && records != []
    requires m.MFinish? && m.id == records[0].id && m.invocationId == records[0].invocationId
    requires Remote(records[0]) ==> x == records[0].invocationId.value
    ensures AllAbout(w, [Update(taskId, m)], x)
  {
    CurrentRecord(cfg, w, taskId, base, records);
    hide Inv, Records;
    OneAbout(w, Update(taskId, m), x);
  }

  lemma RecoverOneAbout(cfg: Config, w: World, taskId: nat, base: nat, records: seq<Exec>, answer: Recovered, at: int,
                        x: string)
    requires Inv(cfg, w) && Recovering(w, taskId, base, records) && records != []
    requires Retracked(records[0]) ==> x == records[0].invocationId.value
    ensures AllAbout(w, RecoverOne(cfg, w, taskId, records[0], answer, at), x)
  {
    var r := records[0];
    var s := RecoverOne(cfg, w, taskId, r, answer, at);
    hide Inv, Recovering, ObserveScript, AllAbout, About, Apply, Cut;
    if s == [] {
      HarmlessAbout(w, [], x);
    } else if r.invocationId.None? {
      GiveUpAbout(cfg, w, taskId, base, records, s[0].m, x);
    } else {
      var track := if cfg.tracked then [Track(TrackerOf(r.tool.semantics), x)] else [];
      var rest := s[|track|..];
      assert s == track + rest;
      TrackAbout(w, track, x);
      if answer.StatusAnswered? {
        ObserveAbout(cfg, w, taskId, x, r.tool.semantics, answer.response, answer.dropped, at);
      } else {
        GiveUpAbout(cfg, w, taskId, base, records, rest[0].m, x);
        assert rest == [rest[0]];
      }
      SameRowsAbout(w, Finish(w, track), rest, x);
      AllAboutConcat(w, track, rest, x);
    }
  }

  lemma TrackAbout(w: World, track: seq<Effect>, x: string)
    requires track == [] || exists k :: track == [Track(k, x)]
    ensures AllAbout(w, track, x) && Finish(w, track).tasks == w.tasks
  {
    if track != [] {
      OneAbout(w, track[0], x);
      FinishOne(w, track[0]);
    }
  }

  /** What is about any execution at all is about none. */
  lemma ElsewhereNowhere(w: World, w': World, x: string, y: string)
    requires Elsewhere(w, w', {x}) && Elsewhere(w, w', {y}) && x != y
    ensures Elsewhere(w, w', {})
  {
    hide Records, Remote;
  }

  lemma AboutRetaken(cfg: Config, w: World, s: seq<Effect>, r: Exec)
    requires Inv(cfg, w) && Legal(cfg, w, s)
    requires forall x :: (Retracked(r) ==> x == r.invocationId.value) ==> AllAbout(w, s, x)
    ensures Elsewhere(w, Finish(w, s), Retaken([r])) && (OwnIds(w) ==> OwnIds(Finish(w, s)))
  {
    assert [r][1..] == [];
    hide Inv, Elsewhere, OwnIds, Legal, AllAbout, Cut, Remote, ToolTerminal;
    if Retracked(r) {
      CutElsewhere(cfg, w, s, |s|, r.invocationId.value);
      assert Retaken([r]) == {r.invocationId.value};
    } else {
      CutElsewhere(cfg, w, s, |s|, "");
      CutElsewhere(cfg, w, s, |s|, "a");
      ElsewhereNowhere(w, Finish(w, s), "", "a");
      assert Retaken([r]) == {};
    }
  }

  lemma RecoverOneElsewhere(cfg: Config, w: World, taskId: nat, base: nat, records: seq<Exec>, answer: Recovered, at: int)
    requires Inv(cfg, w) && Recovering(w, taskId, base, records) && records != []
    ensures var w' := Finish(w, RecoverOne(cfg, w, taskId, records[0], answer, at));
            Elsewhere(w, w', Retaken([records[0]])) && (OwnIds(w) ==> OwnIds(w'))
  {
    var s := RecoverOne(cfg, w, taskId, records[0], answer, at);
    RecoverOneLegal(cfg, w, taskId, base, records, answer, at);
    hide Inv, Recovering, RecoverOne, Elsewhere, OwnIds, Legal, AllAbout, Records, Cut, Retracked, Retaken, Finish;
    forall x | Retracked(records[0]) ==> x == records[0].invocationId.value ensures AllAbout(w, s, x) {
      RecoverOneAbout(cfg, w, taskId, base, records, answer, at, x);
    }
    AboutRetaken(cfg, w, s, records[0]);
  }

  lemma {:induction false} RecoverElsewhere(cfg: Config, w: World, taskId: nat, base: nat, records: seq<Exec>,
                                            answers: seq<Recovered>, at: int)
    requires Inv(cfg, w) && Recovering(w, taskId, base, records)
    ensures Elsewhere(w, Finish(w, RecoverFrom(cfg, w, taskId, records, answers, at)), Retaken(records))
    decreases |records|
  {
    hide Inv, RecoverOne, Recovering, RecoveryAborts, Elsewhere, Legal;
    if records == [] {
      ElsewhereSame(w);
    } else {
      var head := RecoverOne(cfg, w, taskId, records[0], Answer(answers), at);
      var w1 := Finish(w, head);
      RecoverOneLegal(cfg, w, taskId, base, records, Answer(answers), at);
      RecoverOneElsewhere(cfg, w, taskId, base, records, Answer(answers), at);
      assert [records[0]][1..] == [];
      assert Retaken(records) == Retaken([records[0]]) + Retaken(records[1..]);
      if RecoveryAborts(cfg, w, taskId, records[0], Answer(answers)) {
        ElsewhereSame(w1);
        ElsewhereTransitive(w, w1, w1, Retaken([records[0]]), Retaken(records[1..]));
      } else {
        var rest := RecoverFrom(cfg, w1, taskId, records[1..], Rest(answers), at);
        RecoverElsewhere(cfg, w1, taskId, base + 1, records[1..], Rest(answers), at);
        FinishConcat(w, head, rest);
        ElsewhereTransitive(w, w1, Finish(w1, rest), Retaken([records[0]]), Retaken(records[1..]));
      }
    }
  }

  /** A recovery that dies half-way leaves one execution off track at most, the one it was at. */
  lemma {:induction false} RecoverCutOwns(cfg: Config, w: World, taskId: nat, base: nat, records: seq<Exec>,
                                          answers: seq<Recovered>, at: int, n: nat, off: set<string>) returns (x: string)
    requires Inv(cfg, w) && Recovering(w, taskId, base, records) && Owns(w, off) && cfg.tracked
    requires forall k :: 0 <= k < |answers| ==> Obliging(answers[k])
    ensures Owns(Cut(w, RecoverFrom(cfg, w, taskId, records, answers, at), n), off + {x})
    decreases |records|
  {
    hide Inv, RecoverOne, Recovering, RecoveryAborts, Owns, Legal, Elsewhere, OwnIds, AllAbout, Cut;
    if records == [] {
      x := "";
      NothingToCut(w, n);
      OwnsMore(w, off, off + {x});
    } else {
      var head := RecoverOne(cfg, w, taskId, records[0], Answer(answers), at);
      var w1 := Finish(w, head);
      RecoverOneLegal(cfg, w, taskId, base, records, Answer(answers), at);
      RecoverOneOwns(cfg, w, taskId, base, records, Answer(answers), at, off);
      var rest := RecoverFrom(cfg, w1, taskId, records[1..], Rest(answers), at);
      CutConcat(w, head, rest, n);
      if n <= |head| {
        x := if Retracked(records[0]) then records[0].invocationId.value else "";
        RecoverOneAbout(cfg, w, taskId, base, records, Answer(answers), at, x);
        OwnsParts(w, off);
        CutElsewhere(cfg, w, head, n, x);
        ElsewhereOwns(w, Cut(w, head, n), {x}, off);
      } else {
        LeftOffExactly(off, [records[0]]);
        var off1 := LeftOff(off, [records[0]]);
        x := RecoverCutOwns(cfg, w1, taskId, base + 1, records[1..], Rest(answers), at, n - |head|, off1);
        OwnsMore(Cut(w1, rest, n - |head|), off1 + {x}, off + {x});
      }
    }
  }

  lemma NothingToCut(w: World, n: nat)
    ensures Cut(w, [], n) == w
  {}

  lemma OwnsMore(w: World, off: set<string>, more: set<string>)
    requires Owns(w, off) && off <= more
    ensures Owns(w, more)
  {
    hide Records, Remote;
  }

  // ---- Whole runs ----------------------------------------------------------------------------------

  /** The outside world keeps its promises in every call, whether the call ends or not. */
  ghost predicate Honest(cfg: Config, w: World, steps: seq<Step>)
    decreases |steps|
  {
    steps == [] || (Benign(w, steps[0].call) && Honest(cfg, StepWorld(cfg, w, steps[0]), steps[1..]))
  }

  /** The calls that the process died in or that were abandoned. */
  function Losses(steps: seq<Step>): nat
  {
    if steps == [] then 0 else (if steps[0].Done? then 0 else 1) + Losses(steps[1..])
  }

  /** One more lost call, one more execution off track. */
  lemma LossOwns(cfg: Config, w: World, c: Call, n: nat, off: set<string>) returns (x: string)
    requires Inv(cfg, w) && Owns(w, off) && cfg.tracked && Benign(w, c)
    ensures Owns(Cut(w, Script(cfg, w, c), n), off + {x})
  {
    hide Inv, Owns, Legal, Elsewhere, OwnIds, AllAbout, Cut, Script, Benign;
    if c.Reconcile? {
      x := ReconcileCutOwns(cfg, w, c, n, off);
    } else {
      x := Subject(c);
      CallAbout(cfg, w, c);
      ScriptLegal(cfg, w, c);
      OwnsParts(w, off);
      CutElsewhere(cfg, w, Script(cfg, w, c), n, x);
      ElsewhereOwns(w, Cut(w, Script(cfg, w, c), n), {x}, off);
    }
  }

  lemma RecoverySteps(cfg: Config, w: World, c: Call)
    requires c.Reconcile? && ActiveTask(w.tasks) < |w.tasks|
    ensures var t := w.tasks[ActiveTask(w.tasks)];
            var hold := Hold(cfg, t);
            var s := if t.binding.Some? && cfg.tracked && !c.bindingTracked then []
                     else hold + RecoverFrom(cfg, Finish(w, hold), t.id, Records(t), c.found, c.at);
            StepWorld(cfg, w, Done(c)) == Finish(w, s) && Script(cfg, w, c) == s
  {
    hide RecoverFrom, Records, Apply, ActiveTask;
  }

  lemma HoldTakes(cfg: Config, w: World, t: Task)
    ensures AllQuiet(Hold(cfg, t))
    ensures Finish(w, Hold(cfg, t)).bindings
            == w.bindings + if t.binding.Some? && cfg.tracked then {t.binding.value.id} else {}
  {
    var hold := Hold(cfg, t);
    if hold == [] {
      FinishNothing(w);
      assert w.bindings + {} == w.bindings;
    } else {
      FinishOne(w, hold[0]);
      assert hold == [hold[0]];
    }
  }

  lemma FinishIsCut(w: World, s: seq<Effect>)
    ensures Finish(w, s) == Cut(w, s, |s|)
  {}

  lemma OpenRecovering(cfg: Config, w: World, i: nat)
    requires Inv(cfg, w) && i == ActiveTask(w.tasks) < |w.tasks|
    ensures Find(w.tasks, w.tasks[i].id) == i && Recovering(w, w.tasks[i].id, 0, Records(w.tasks[i]))
  {
    FindAt(w.tasks, i);
    assert Records(w.tasks[i])[0..] == Records(w.tasks[i]);
    hide Inv, Records, Terminal;
  }

  lemma StillRecovering(w: World, w1: World, taskId: nat, records: seq<Exec>)
    requires w1.tasks == w.tasks && Recovering(w, taskId, 0, records)
    ensures Recovering(w1, taskId, 0, records) && Find(w1.tasks, taskId) == Find(w.tasks, taskId)
  {}

  /** Recovery's way to its first record: it holds the binding, if there is one to hold. */
  lemma Held(cfg: Config, w: World, c: Call)
    requires Inv(cfg, w) && c.Reconcile? && ActiveTask(w.tasks) < |w.tasks| && (cfg.tracked ==> c.bindingTracked)
    ensures var i := ActiveTask(w.tasks);
            var t := w.tasks[i];
            var hold := Hold(cfg, t);
            var w1 := Finish(w, hold);
            && (forall k :: 0 <= k < |hold| ==> Harmless(hold[k]))
            && Legal(cfg, w, hold) && Inv(cfg, w1) && Recovering(w1, t.id, 0, Records(t))
            && w1.tasks == w.tasks && w1.posts == w.posts && Find(w1.tasks, t.id) == i
            && Script(cfg, w, c) == hold + RecoverFrom(cfg, w1, t.id, Records(t), c.found, c.at)
  {
    var i := ActiveTask(w.tasks);
    var t := w.tasks[i];
    var hold := Hold(cfg, t);
    hide *;
    OpenRecovering(cfg, w, i);
    RecoverySteps(cfg, w, c);
    HoldTakes(cfg, w, t);
    HoldKeeps(cfg, w, t);
    QuietLegal(cfg, w, hold);
    CutInv(cfg, w, hold, |hold|);
    FinishIsCut(w, hold);
    StillRecovering(w, Finish(w, hold), t.id, Records(t));
  }

  lemma HeldCutOwns(cfg: Config, w: World, hold: seq<Effect>, taskId: nat, records: seq<Exec>, found: seq<Recovered>,
                    at: int, n: nat, off: set<string>) returns (x: string)
    requires Inv(cfg, w) && Owns(w, off) && cfg.tracked && Legal(cfg, w, hold) && Inv(cfg, Finish(w, hold))
    requires forall k :: 0 <= k < |hold| ==> Harmless(hold[k])
    requires forall k :: 0 <= k < |found| ==> Obliging(found[k])
    requires Recovering(Finish(w, hold), taskId, 0, records)
    ensures Owns(Cut(w, hold + RecoverFrom(cfg, Finish(w, hold), taskId, records, found, at), n), off + {x})
  {
    hide *;
    var w1 := Finish(w, hold);
    var rest := RecoverFrom(cfg, w1, taskId, records, found, at);
    CutConcat(w, hold, rest, n);
    x := "";
    if n <= |hold| {
      HarmlessCut(cfg, w, hold, n, off);
      OwnsMore(Cut(w, hold, n), off, off + {x});
    } else {
      WholeCut(w, hold);
      HarmlessCut(cfg, w, hold, |hold|, off);
      x := RecoverCutOwns(cfg, w1, taskId, 0, records, found, at, n - |hold|, off);
    }
  }

  lemma ReconcileCutOwns(cfg: Config, w: World, c: Call, n: nat, off: set<string>) returns (x: string)
    requires Inv(cfg, w) && Owns(w, off) && cfg.tracked && Benign(w, c) && c.Reconcile?
    ensures Owns(Cut(w, Script(cfg, w, c), n), off + {x})
  {
    hide Inv, Owns, Cut, RecoverFrom, Hold, Legal, Recovering, Harmless, Obliging, Records;
    var i := ActiveTask(w.tasks);
    if i == |w.tasks| {
      x := "";
      assert Script(cfg, w, c) == [];
      NothingToCut(w, n);
      OwnsMore(w, off, off + {x});
    } else {
      ObligingAll(w, c);
      Held(cfg, w, c);
      hide Script, ReconcileScript, Benign;
      var t := w.tasks[i];
      x := HeldCutOwns(cfg, w, Hold(cfg, t), t.id, Records(t), c.found, c.at, n, off);
    }
  }

  lemma WholeCut(w: World, s: seq<Effect>)
    ensures Finish(w, s) == Cut(w, s, |s|)
  {}

  lemma ObligingAll(w: World, c: Call)
    requires c.Reconcile? && Benign(w, c)
    ensures c.bindingTracked && forall k :: 0 <= k < |c.found| ==> Obliging(c.found[k])
  {}

  lemma DoneOwns(cfg: Config, w: World, c: Call, off: set<string>)
    requires Inv(cfg, w) && Owns(w, off) && cfg.tracked && Benign(w, c)
    ensures Owns(Finish(w, Script(cfg, w, c)), off)
  {
    hide Inv, Owns, Script, Benign;
    CallOwns(cfg, w, c, off);
    if c.Reconcile? && ActiveTask(w.tasks) < |w.tasks| { LeftOffExactly(off, Records(w.tasks[ActiveTask(w.tasks)])); }
    OwnsMore(Finish(w, Script(cfg, w, c)), OffAfter(w, c, off), off);
  }

  lemma {:induction false} LossesOwn(cfg: Config, w: World, steps: seq<Step>, off: set<string>) returns (off': set<string>)
    requires Inv(cfg, w) && Owns(w, off) && cfg.tracked && Honest(cfg, w, steps)
    ensures Owns(After(cfg, w, steps), off') && |off'| <= |off| + Losses(steps)
    decreases |steps|
  {
    hide Inv, Owns, Benign, Script, Cut, Grows;
    if steps == [] {
      off' := off;
    } else {
      var w1 := StepWorld(cfg, w, steps[0]);
      StepInv(cfg, w, steps[0]);
      if steps[0].Done? {
        DoneOwns(cfg, w, steps[0].call, off);
        off' := LossesOwn(cfg, w1, steps[1..], off);
      } else {
        var x := LossOwns(cfg, w, steps[0].call, steps[0].n, off);
        assert |off + {x}| <= |off| + 1;
        off' := LossesOwn(cfg, w1, steps[1..], off + {x});
      }
    }
  }

  /** In every run, with deaths and abandoned calls anywhere: there are at most as many executions off
      track as calls were lost, and every other one is in its set exactly while its end is not proved. */
  lemma OwnershipDespiteLosses(cfg: Config, steps: seq<Step>) returns (off: set<string>)
    requires cfg.tracked && Honest(cfg, EMPTY, steps)
    ensures |off| <= Losses(steps)
    ensures forall i: nat, j: nat ::
              RemoteAt(Reached(cfg, steps), i, j) && RemoteId(Reached(cfg, steps), i, j) !in off ==>
                !OffTrack(Reached(cfg, steps), i, j)
  {
    EmptyInv(cfg);
    NothingOwned();
    off := LossesOwn(cfg, EMPTY, steps, {});
    hide Reached, RemoteAt, RemoteId, InSet, Ended;
  }

  /** The identities off track in a world. */
  function Astray(w: World): (r: set<string>)
    ensures forall i: nat, j: nat :: RemoteAt(w, i, j) && OffTrack(w, i, j) ==> RemoteId(w, i, j) in r
    ensures forall id :: id in r ==> exists i: nat, j: nat :: RemoteAt(w, i, j) && RemoteId(w, i, j) == id && OffTrack(w, i, j)
  {
    set i: nat, j: nat | i < |w.tasks| && j < |Records(w.tasks[i])| && RemoteAt(w, i, j) && OffTrack(w, i, j)
      :: RemoteId(w, i, j)
  }

  /** After any run, a recovery that ends puts exactly these right: the executions of the open task whose
      record was still open. What was off track and is closed, or belongs to an ended task, stays so,
      and nothing else gets off track. */
  lemma RecoveryRetracksExactly(cfg: Config, steps: seq<Step>, c: Call, i: nat, j: nat)
    requires cfg.tracked && Honest(cfg, EMPTY, steps) && c.Reconcile? && Benign(Reached(cfg, steps), c)
    requires RemoteAt(Reached(cfg, steps), i, j)
    ensures var w := Reached(cfg, steps);
            var w' := StepWorld(cfg, w, Done(c));
            && RemoteAt(w', i, j)
            && (OffTrack(w', i, j) <==>
                  OffTrack(w, i, j) && !(i == ActiveTask(w.tasks) && Retracked(Records(w.tasks[i])[j])))
  {
    var w := Reached(cfg, steps);
    EmptyInv(cfg);
    NothingOwned();
    var some := LossesOwn(cfg, EMPTY, steps, {});
    ReachedInv(cfg, steps);
    OwnsParts(w, some);
    hide Reached, Inv, Benign, OwnIds;
    RetracksExactly(cfg, w, c, i, j);
  }

  lemma AstrayOwns(w: World)
    requires OwnIds(w)
    ensures Owns(w, Astray(w))
  {
    hide Records, Remote;
  }

  lemma RetracksExactly(cfg: Config, w: World, c: Call, i: nat, j: nat)
    requires Inv(cfg, w) && OwnIds(w) && cfg.tracked && c.Reconcile? && Benign(w, c) && RemoteAt(w, i, j)
    ensures var w' := Finish(w, Script(cfg, w, c));
            && RemoteAt(w', i, j)
            && (OffTrack(w', i, j) <==>
                  OffTrack(w, i, j) && !(i == ActiveTask(w.tasks) && Retracked(Records(w.tasks[i])[j])))
  {
    var w' := Finish(w, Script(cfg, w, c));
    var a := ActiveTask(w.tasks);
    var off := Astray(w);
    AstrayOwns(w);
    CallOwns(cfg, w, c, off);
    ReconcileElsewhere(cfg, w, c);
    var x := if a < |w.tasks| then Retaken(Records(w.tasks[a])) else {};
    if a < |w.tasks| { LeftOffExactly(off, Records(w.tasks[a])); }
    RetakenIs(w, a, i, j);
    var id := RemoteId(w, i, j);
    hide Inv, Benign, Script, Records, Remote, Astray, Retracked, Retaken, LeftOff;
    assert Owns(w', off - x);
    assert RemoteAt(w', i, j) && RemoteId(w', i, j) == id;
    if id !in x { ElsewhereOffTrack(w, w', x, i, j); }
  }

  /** Identities are unique, so what recovery retakes is one of its own records. */
  lemma RetakenIs(w: World, a: nat, i: nat, j: nat)
    requires OwnIds(w) && RemoteAt(w, i, j) && a <= |w.tasks|
    ensures RemoteId(w, i, j) in (if a < |w.tasks| then Retaken(Records(w.tasks[a])) else {}) <==>
            a < |w.tasks| && i == a && Retracked(Records(w.tasks[i])[j])
  {
    if a < |w.tasks| {
      var id := RemoteId(w, i, j);
      RetakenExactly(Records(w.tasks[a]), id);
      if id in Retaken(Records(w.tasks[a])) {
        var k: nat :| k < |Records(w.tasks[a])| && Retracked(Records(w.tasks[a])[k])
          && Records(w.tasks[a])[k].invocationId.value == id;
        assert RemoteAt(w, a, k) && RemoteId(w, a, k) == id;
      }
    }
  }

  lemma ReconcileElsewhere(cfg: Config, w: World, c: Call)
    requires Inv(cfg, w) && cfg.tracked && c.Reconcile? && Benign(w, c)
    ensures var a := ActiveTask(w.tasks);
            Elsewhere(w, Finish(w, Script(cfg, w, c)), if a < |w.tasks| then Retaken(Records(w.tasks[a])) else {})
  {
    var i := ActiveTask(w.tasks);
    if i == |w.tasks| {
      assert Script(cfg, w, c) == [];
      NothingToCut(w, 0);
      hide Elsewhere;
      ElsewhereSame(w);
    } else {
      ObligingAll(w, c);
      Held(cfg, w, c);
      hide *;
      var t := w.tasks[i];
      var hold := Hold(cfg, t);
      var w1 := Finish(w, hold);
      HarmlessElsewhere(cfg, w, hold);
      var rest := RecoverFrom(cfg, w1, t.id, Records(t), c.found, c.at);
      FinishConcat(w, hold, rest);
      RecoverElsewhere(cfg, w1, t.id, 0, Records(t), c.found, c.at);
      ElsewhereTransitive(w, w1, Finish(w1, rest), {}, Retaken(Records(t)));
      assert {} + Retaken(Records(t)) == Retaken(Records(t));
    }
  }

  lemma HarmlessElsewhere(cfg: Config, w: World, effects: seq<Effect>)
    requires Inv(cfg, w) && Legal(cfg, w, effects) && forall k :: 0 <= k < |effects| ==> Harmless(effects[k])
    ensures Elsewhere(w, Finish(w, effects), {})
  {
    WholeCut(w, effects);
    hide *;
    HarmlessAbout(w, effects, "");
    HarmlessAbout(w, effects, "a");
    CutElsewhere(cfg, w, effects, |effects|, "");
    CutElsewhere(cfg, w, effects, |effects|, "a");
    ElsewhereNowhere(w, Finish(w, effects), "", "a");
  }
}
