/** What a completed call leaves behind, exactly: a created task, a new revision, the status of a
    finalized task for every mode and verdict, and what a cancellation asks for and leaves. */
module Outcomes {
  import opened Common
  import opened AgentTask
  import opened Protocol
  import opened Facts
  import opened TaskInvariants
  import opened WorldInvariants
  import opened Runs
  import opened Dispatching
  import opened Retries
  import opened Ownership
  import opened Reconciled

  // ---- Finalization ------------------------------------------------------------------------------

  /** The verifier is there and gave this verdict. */
  predicate Ruled(cfg: Config, v: VerifierReply, name: VerdictName)
  {
    cfg.verifier && v.VerdictGiven? && v.verdict.name == name
  }

  /** The status in which a finalized task ends, in each mode, for every verifier and every set of
      facts, and what is written down of the verdict. */
  ghost predicate ClosedAs(cfg: Config, t: Task, t': Task, v: VerifierReply, now: int)
  {
    var facts := AllFulfilled(Records(t));
    var ruled := cfg.verifier && v.VerdictGiven?;
    && t'.status ==
         (if t.cancellationRequested then if AllCalledOff(Records(t)) then TaskStatus.Cancelled else TaskStatus.Failed
          else if t.mode == Off || t.mode == Audit then if facts then TaskStatus.Succeeded else TaskStatus.Failed
          else if Ruled(cfg, v, Success) then TaskStatus.Succeeded
          else if t.mode == Recovery && Ruled(cfg, v, ReplanRequired) && |t.revisions| <= cfg.maxReplans then AwaitingReplan
          else TaskStatus.Failed)
    && t'.verdict == (if !t.cancellationRequested && t.mode != Off && ruled then Some(v.verdict) else t.verdict)
    && t'.attempts == t.attempts + (if t.cancellationRequested || t.mode == Off then []
                                    else if ruled then [v.attempt] else [Attempt(v.attempt.id, None)])
    && t'.replanDeadline == (if t'.status == AwaitingReplan then Some(now + REPLAN_TIMEOUT) else t.replanDeadline)
    && t'.cancellationRequested == t.cancellationRequested && |t'.revisions| == |t.revisions|
    && t'.description == t.description && t'.mode == t.mode && t'.binding == t.binding
  }

  lemma ClosingStatus(cfg: Config, t: Task, v: VerifierReply, now: int)
    requires Ledger(t)
    ensures var m := Closing(cfg, t, v, now);
            Mutate(t, m).status ==
              if m.MVerified? then VerifiedStatus(t, m.verdict, m.maxReplans) else m.to
  {
    ActiveIsLast(t);
    hide FactsSucceeded, CancelStatus, Records, Ledger, VerifiedStatus;
  }

  lemma ClosingWrites(cfg: Config, t: Task, v: VerifierReply, now: int)
    requires Ledger(t)
    ensures var t', ruled := Mutate(t, Closing(cfg, t, v, now)), cfg.verifier && v.VerdictGiven?;
            && t'.verdict == (if !t.cancellationRequested && t.mode != Off && ruled then Some(v.verdict) else t.verdict)
            && t'.attempts == t.attempts + (if t.cancellationRequested || t.mode == Off then []
                                            else if ruled then [v.attempt] else [Attempt(v.attempt.id, None)])
            && t' == t.(verdict := t'.verdict, attempts := t'.attempts, revisions := t'.revisions, status := t'.status,
                        replanDeadline := t'.replanDeadline)
            && |t'.revisions| == |t.revisions|
            && t'.replanDeadline ==
               (if Closing(cfg, t, v, now).MVerified? && t'.status == AwaitingReplan then Some(now + REPLAN_TIMEOUT)
                else t.replanDeadline)
  {
    ActiveIsLast(t);
    assert t.attempts + [] == t.attempts;
    hide FactsSucceeded, CancelStatus, Records, Ledger, VerifiedStatus;
  }

  lemma ClosingExactly(cfg: Config, t: Task, v: VerifierReply, now: int)
    requires Ledger(t) && Records(t) != []
    ensures ClosedAs(cfg, t, Mutate(t, Closing(cfg, t, v, now)), v, now)
  {
    TaskFacts(t);
    ClosingStatus(cfg, t, v, now);
    ClosingWrites(cfg, t, v, now);
    hide FactsSucceeded, CancelStatus, Records, Ledger, AllFulfilled, AllCalledOff, Mutate;
  }

  /** A finalization that ran to its end: refused for a task that is closed, has no execution or still
      must see one end; else its task ends in the status that mode, facts and verdict determine, with
      its after evidence, and no record moves. No other task is touched. */
  lemma FinalizedExactly(cfg: Config, w: World, c: Call, i: nat)
    requires Inv(cfg, w) && c.Finalize? && i < |w.tasks| && Find(w.tasks, c.taskId) == i
    ensures var t, w' := w.tasks[i], StepWorld(cfg, w, Done(c));
            && |w'.tasks| == |w.tasks| && Records(w'.tasks[i]) == Records(t) && w'.posts == w.posts
            && (forall j :: 0 <= j < |w.tasks| && j != i ==> w'.tasks[j] == w.tasks[j])
            && if IsClosed(t) || SomeGoesOn(Records(t)) || Records(t) == [] || !c.captured then w' == w
               else && ClosedAs(cfg, t, w'.tasks[i], c.verifier, c.now)
                    && w'.tasks[i].afterRef == c.after && w'.tasks[i].bundleRef == Some(c.bundle)
  {
    var t := w.tasks[i];
    hide *;
    TaskFacts(t);
    FinalizeStarts(cfg, w, c, i);
    if IsClosed(t) || SomeGoesOn(Records(t)) || Records(t) == [] || !c.captured {
      FinishNothing(w);
    } else {
      FinalizedRow(cfg, w, c, i);
      FinalizedAs(cfg, t, c);
    }
  }

  lemma FinalizeStarts(cfg: Config, w: World, c: Call, i: nat)
    requires Inv(cfg, w) && c.Finalize? && i < |w.tasks| && Find(w.tasks, c.taskId) == i
    ensures StepWorld(cfg, w, Done(c)) == Finish(w, FinalizeScript(cfg, w, c)) && Ledger(w.tasks[i])
    ensures FinalizeScript(cfg, w, c) == []
            <==> Terminal(w.tasks[i]) || OwnedPending(w.tasks[i]) || Records(w.tasks[i]) == [] || !c.captured
  {
    assert Sound(cfg, w.tasks[i], w.nextUid);
    hide Inv, Terminal, OwnedPending, Records, Release, Mutate, Closing;
  }

  lemma FinalizedAs(cfg: Config, t: Task, c: Call)
    requires Ledger(t) && Records(t) != [] && c.Finalize?
    ensures var t1 := Mutate(t, MAfter(c.after, c.bundle));
            var t' := Mutate(t1, Closing(cfg, t1, c.verifier, c.now));
            ClosedAs(cfg, t, t', c.verifier, c.now) && t'.afterRef == c.after && t'.bundleRef == Some(c.bundle)
  {
    var t1 := Mutate(t, MAfter(c.after, c.bundle));
    assert t1 == t.(afterRef := c.after, bundleRef := Some(c.bundle));
    hide *;
    SameButEvidence(t, t1);
    ClosingExactly(cfg, t1, c.verifier, c.now);
    ClosedSame(cfg, t, t1, Mutate(t1, Closing(cfg, t1, c.verifier, c.now)), c.verifier, c.now);
    ClosingKeepsEvidence(cfg, t1, c.verifier, c.now);
  }

  lemma ClosedSame(cfg: Config, t: Task, t1: Task, t': Task, v: VerifierReply, now: int)
    requires t1 == t.(afterRef := t1.afterRef, bundleRef := t1.bundleRef) && Records(t1) == Records(t)
    requires ClosedAs(cfg, t1, t', v, now)
    ensures ClosedAs(cfg, t, t', v, now)
  {
    hide Records;
  }

  lemma ClosingKeepsEvidence(cfg: Config, t: Task, v: VerifierReply, now: int)
    ensures var t' := Mutate(t, Closing(cfg, t, v, now)); t'.afterRef == t.afterRef && t'.bundleRef == t.bundleRef
  {
    hide FactsSucceeded, CancelStatus, VerifiedStatus;
  }

  lemma SameButEvidence(t: Task, t1: Task)
    requires Ledger(t) && t1 == t.(afterRef := t1.afterRef, bundleRef := t1.bundleRef)
    ensures Ledger(t1) && Records(t1) == Records(t) && (FactsSucceeded(t1) <==> FactsSucceeded(t))
    ensures CancelStatus(t1) == CancelStatus(t)
  {}

  lemma FinalizedRow(cfg: Config, w: World, c: Call, i: nat)
    requires c.Finalize? && i < |w.tasks| && Find(w.tasks, c.taskId) == i && FinalizeScript(cfg, w, c) != []
    requires Ledger(w.tasks[i])
    ensures var t1 := Mutate(w.tasks[i], MAfter(c.after, c.bundle));
            var w' := Finish(w, FinalizeScript(cfg, w, c));
            |w'.tasks| == |w.tasks| && w'.tasks[i] == Mutate(t1, Closing(cfg, t1, c.verifier, c.now))
            && Records(w'.tasks[i]) == Records(w.tasks[i]) && w'.posts == w.posts
            && (forall j :: 0 <= j < |w.tasks| && j != i ==> w'.tasks[j] == w.tasks[j])
  {
    var t := w.tasks[i];
    var t1 := Mutate(t, MAfter(c.after, c.bundle));
    var m := Closing(cfg, t1, c.verifier, c.now);
    SameButEvidence(t, t1);
    ClosingRecords(cfg, t1, c.verifier, c.now);
    FindUpdated(w, t.id, MAfter(c.after, c.bundle));
    hide Mutate, Closing, Release, OwnedPending, Records, Ledger;
    var first, second := Update(t.id, MAfter(c.after, c.bundle)), Update(t.id, m);
    var rest := Release(cfg, Mutate(t1, m));
    var s := FinalizeScript(cfg, w, c);
    assert s == [first] + ([second] + rest);
    var w1 := Apply(w, first);
    var w2 := Apply(w1, second);
    FinishOne(w, first);
    FinishOne(w1, second);
    FinishConcat(w, [first], [second] + rest);
    FinishConcat(w1, [second], rest);
    ReleasedBindings(cfg, w2, Mutate(t1, m));
    assert w2.tasks[i] == Mutate(t1, m);
  }

  lemma ClosingRecords(cfg: Config, t: Task, v: VerifierReply, now: int)
    requires Ledger(t)
    ensures Records(Mutate(t, Closing(cfg, t, v, now))) == Records(t)
  {
    ActiveIsLast(t);
    var n := |t.revisions| - 1;
    var t' := Mutate(t, Closing(cfg, t, v, now));
    hide FactsSucceeded, CancelStatus, VerifiedStatus;
    assert t'.revisions == t.revisions[n := t'.revisions[n]];
    assert t'.revisions[n].records == t.revisions[n].records;
    FlattenLast(t.revisions, t'.revisions[n]);
  }

  // ---- Cancellation ------------------------------------------------------------------------------

  /** An execution the Gateway can be asked to end. */
  predicate Endable(r: Exec)
  {
    GoingOn(r) && r.invocationId.Some?
  }

  predicate AsksToEnd(ask: Control, r: Exec)
  {
    Endable(r)
    && ask == if r.tool.semantics.Session? then StopRequest(r.invocationId.value)
              else CancelRequest(r.invocationId.value)
  }

  /** The k-th request is about the record at `where'[k]`, and every cancellable record has one. */
  ghost predicate Pairs(asks: seq<Control>, records: seq<Exec>, where': seq<nat>)
  {
    && |where'| == |asks|
    && (forall k :: 0 <= k < |asks| ==> where'[k] < |records| && AsksToEnd(asks[k], records[where'[k]]))
    && (forall k, l :: 0 <= k < l < |asks| ==> where'[k] < where'[l])
    && (forall j :: 0 <= j < |records| && Endable(records[j]) ==> j in where')
  }

  /** The Gateway is asked once for every owned execution that is still open and known, in order:
      to stop a Session, to cancel an Action. */
  ghost predicate AsksForEach(asks: seq<Control>, records: seq<Exec>)
  {
    exists where': seq<nat> :: Pairs(asks, records, where')
  }

  function Later(where': seq<nat>): (r: seq<nat>)
    ensures |r| == |where'| && forall k :: 0 <= k < |r| ==> r[k] == where'[k] + 1
  {
    seq(|where'|, k requires 0 <= k < |where'| => where'[k] + 1)
  }

  lemma PairsSkip(asks: seq<Control>, records: seq<Exec>, where': seq<nat>)
    requires records != [] && Pairs(asks, records[1..], where') && !Endable(records[0])
    ensures Pairs(asks, records, Later(where'))
  {}

  lemma TakenCovered(records: seq<Exec>, where': seq<nat>)
    requires records != [] && forall j :: 0 <= j < |records[1..]| && Endable(records[1..][j]) ==> j in where'
    ensures forall j :: 0 <= j < |records| && Endable(records[j]) ==> j in [0] + Later(where')
  {
    hide Endable;
    var all := [0] + Later(where');
    forall j | 0 <= j < |records| && Endable(records[j]) ensures j in all {
      if j == 0 {
        assert all[0] == 0;
      } else {
        assert Endable(records[1..][j - 1]);
        var k :| 0 <= k < |where'| && where'[k] == j - 1;
        assert all[k + 1] == j;
      }
    }
  }

  lemma TakenAscends(where': seq<nat>)
    requires forall k, l :: 0 <= k < l < |where'| ==> where'[k] < where'[l]
    ensures var all := [0] + Later(where'); forall k, l :: 0 <= k < l < |all| ==> all[k] < all[l]
  {
    var all := [0] + Later(where');
    forall k, l | 0 <= k < l < |all| ensures all[k] < all[l] {
      assert all[l] == where'[l - 1] + 1;
      if k > 0 { assert all[k] == where'[k - 1] + 1; }
    }
  }

  lemma TakenAsks(ask: Control, asks: seq<Control>, records: seq<Exec>, where': seq<nat>, k: nat)
    requires records != [] && |where'| == |asks| && k < |asks| + 1 && AsksToEnd(ask, records[0])
    requires forall j :: 0 <= j < |asks| ==> where'[j] < |records[1..]| && AsksToEnd(asks[j], records[1..][where'[j]])
    ensures var all := [0] + Later(where');
            all[k] < |records| && AsksToEnd(([ask] + asks)[k], records[all[k]])
  {
    hide AsksToEnd;
    if k > 0 { assert AsksToEnd(asks[k - 1], records[1..][where'[k - 1]]); }
  }

  lemma PairsTake(ask: Control, asks: seq<Control>, records: seq<Exec>, where': seq<nat>)
    requires records != [] && Pairs(asks, records[1..], where') && AsksToEnd(ask, records[0])
    ensures Pairs([ask] + asks, records, [0] + Later(where'))
  {
    hide Endable, AsksToEnd;
    TakenCovered(records, where');
    TakenAscends(where');
    forall k | 0 <= k < |asks| + 1
      ensures ([0] + Later(where'))[k] < |records|
      ensures AsksToEnd(([ask] + asks)[k], records[([0] + Later(where'))[k]])
    {
      TakenAsks(ask, asks, records, where', k);
    }
  }

  lemma {:induction false} AskedForEach(records: seq<Exec>) returns (where': seq<nat>)
    ensures Pairs(Asked(CancelRequests(records)), records, where')
  {
    if records == [] {
      where' := [];
    } else {
      var rest := AskedForEach(records[1..]);
      RecordFacts(records[0]);
      var later := CancelRequests(records[1..]);
      if Endable(records[0]) {
        var e := CancelRequests(records)[0];
        assert CancelRequests(records) == [e] + later && CancelRequests(records)[1..] == later;
        where' := [0] + Later(rest);
        PairsTake(e.control, Asked(later), records, rest);
      } else {
        assert CancelRequests(records) == later;
        where' := Later(rest);
        PairsSkip(Asked(later), records, rest);
      }
    }
  }

  /** A cancellation that ran to its end asked for each open execution exactly once, and sent nothing
      else. */
  lemma CancelAsksForEach(cfg: Config, w: World, c: Call)
    requires c.CancelTask? && CancelScript(cfg, w, c) != []
    ensures var t := w.tasks[Find(w.tasks, c.taskId)];
            var w' := Finish(w, CancelScript(cfg, w, c));
            && w.controls <= w'.controls
            && AsksForEach(w'.controls[|w.controls|..], Records(t))
  {
    hide Mutate, Release, CancelMutation, AsksForEach, Records;
    var t := w.tasks[Find(w.tasks, c.taskId)];
    var m := CancelMutation(t, c.answers, c.at);
    var requests := CancelRequests(Records(t));
    var rest := [Update(t.id, m)] + Release(cfg, Mutate(t, m));
    assert CancelScript(cfg, w, c) == requests + rest;
    NothingAsked(cfg, t.id, m, Mutate(t, m));
    AskedConcat(requests, rest);
    FinishAsks(w, requests + rest);
    var where' := AskedForEach(Records(t));
    assert AsksForEach(Asked(requests), Records(t)) by { AsksWitness(Asked(requests), Records(t), where'); }
    assert Asked(requests) + [] == Asked(requests);
    assert (w.controls + Asked(requests))[|w.controls|..] == Asked(requests);
  }

  lemma AsksWitness(asks: seq<Control>, records: seq<Exec>, where': seq<nat>)
    requires Pairs(asks, records, where')
    ensures AsksForEach(asks, records)
  {}

  lemma NothingAsked(cfg: Config, id: nat, m: Mutation, t: Task)
    ensures Asked([Update(id, m)] + Release(cfg, t)) == []
  {
    var s := [Update(id, m)] + Release(cfg, t);
    assert s[1..] == Release(cfg, t);
    assert |Release(cfg, t)| <= 1;
    assert Asked(Release(cfg, t)) == [] by {
      if Release(cfg, t) != [] { assert Release(cfg, t)[1..] == []; }
    }
  }

  // ---- What a cancellation leaves ----------------------------------------------------------------

  /** No two executions of a task share an identity. */
  ghost predicate OwnNames(records: seq<Exec>)
  {
    forall a, b :: 0 <= a < b < |records| && records[a].invocationId.Some? ==>
      records[a].invocationId != records[b].invocationId
  }

  /** The response in this list for this execution. */
  function ResponseFor(responses: seq<(string, Dict)>, r: Exec): Option<Dict>
  {
    if responses == [] then None
    else if r.invocationId == Some(responses[0].0) then Some(responses[0].1)
    else ResponseFor(responses[1..], r)
  }

  function Responded(r: Exec, response: Option<Dict>, at: int): Exec
  {
    if response.None? then r else r.(response := response, updatedAt := at)
  }

  /** Every record has the response that the list holds for it, and nothing else changed. */
  ghost predicate AllResponded(t: Task, t': Task, responses: seq<(string, Dict)>, at: int)
  {
    && t' == t.(revisions := t'.revisions) && |t'.revisions| == |t.revisions| && |Records(t')| == |Records(t)|
    && forall k :: 0 <= k < |Records(t)| ==>
         Records(t')[k] == Responded(Records(t)[k], ResponseFor(responses, Records(t)[k]), at)
  }

  ghost predicate DistinctNames(responses: seq<(string, Dict)>)
  {
    forall i, j :: 0 <= i < j < |responses| ==> responses[i].0 != responses[j].0
  }

  lemma {:induction false} NoResponseFor(responses: seq<(string, Dict)>, r: Exec)
    requires forall j :: 0 <= j < |responses| ==> r.invocationId != Some(responses[j].0)
    ensures ResponseFor(responses, r).None?
  {
    if responses != [] { NoResponseFor(responses[1..], r); }
  }

  lemma OneResponse(cfg: Config, t: Task, uid: nat, name: string, response: Dict, at: int)
    requires Sound(cfg, t, uid) && OwnNames(Records(t))
    ensures var i := InvocationIndex(Records(t), name);
            var t1 := if i < |Records(t)| then Put(t, Records(t)[i].(response := Some(response), updatedAt := at)) else t;
            && Sound(cfg, t1, uid) && AllResponded(t, t1, [(name, response)], at) && OwnNames(Records(t1))
  {
    var i := InvocationIndex(Records(t), name);
    FirstNamed(Records(t), name);
    if i < |Records(t)| {
      RespondSound(cfg, t, uid, i, response, at);
      RecordAt(cfg, t, uid, i);
      PutRecords(t, i, Records(t)[i].(response := Some(response), updatedAt := at));
    }
    hide Sound, Records, AllResponded;
    OnePut(t, if i < |Records(t)| then Put(t, Records(t)[i].(response := Some(response), updatedAt := at)) else t,
           name, response, at);
  }

  lemma OnePut(t: Task, t1: Task, name: string, response: Dict, at: int)
    requires OwnNames(Records(t)) && t1 == t.(revisions := t1.revisions) && |t1.revisions| == |t.revisions|
    requires var i := InvocationIndex(Records(t), name);
             && (forall k :: 0 <= k < i ==> Records(t)[k].invocationId != Some(name))
             && Records(t1) == if i == |Records(t)| then Records(t)
                               else Records(t)[i := Records(t)[i].(response := Some(response), updatedAt := at)]
    ensures AllResponded(t, t1, [(name, response)], at) && OwnNames(Records(t1))
  {
    var one := [(name, response)];
    hide Records;
    forall r: Exec ensures ResponseFor(one, r) == if r.invocationId == Some(name) then Some(response) else None {
      assert one[1..] == [];
    }
  }

  lemma {:induction false} FirstNamed(records: seq<Exec>, name: string)
    ensures forall k :: 0 <= k < InvocationIndex(records, name) ==> records[k].invocationId != Some(name)
  {
    if records != [] && records[0].invocationId != Some(name) {
      FirstNamed(records[1..], name);
      assert forall k :: 0 < k < |records| ==> records[k] == records[1..][k - 1];
    }
  }

  lemma RespondedNext(t: Task, t1: Task, t': Task, responses: seq<(string, Dict)>, at: int)
    requires responses != [] && DistinctNames(responses) && OwnNames(Records(t))
    requires AllResponded(t, t1, [responses[0]], at) && AllResponded(t1, t', responses[1..], at)
    ensures AllResponded(t, t', responses, at)
  {
    var one := [responses[0]];
    hide Records, OwnNames;
    forall r: Exec ensures ResponseFor(one, r) == if r.invocationId == Some(responses[0].0) then Some(responses[0].1) else None {
      assert one[1..] == [];
    }
    forall k | 0 <= k < |Records(t)|
      ensures Records(t')[k] == Responded(Records(t)[k], ResponseFor(responses, Records(t)[k]), at)
    {
      var r, r1 := Records(t)[k], Records(t1)[k];
      SameName(responses[1..], r, r1);
      if r.invocationId == Some(responses[0].0) {
        NoResponseFor(responses[1..], r);
      }
    }
  }

  lemma {:induction false} SameName(responses: seq<(string, Dict)>, r: Exec, r1: Exec)
    requires r1.invocationId == r.invocationId
    ensures ResponseFor(responses, r1) == ResponseFor(responses, r)
  {
    if responses != [] { SameName(responses[1..], r, r1); }
  }

  lemma {:induction false} ResponsesSet(cfg: Config, t: Task, uid: nat, responses: seq<(string, Dict)>, at: int)
    requires Sound(cfg, t, uid) && OwnNames(Records(t)) && DistinctNames(responses)
    ensures AllResponded(t, SetResponses(t, responses, at), responses, at)
    decreases |responses|
  {
    if responses == [] {
      hide Sound, Records, OwnNames;
    } else {
      OneResponse(cfg, t, uid, responses[0].0, responses[0].1, at);
      hide Sound, Records, OwnNames, AllResponded, Put;
      var i := InvocationIndex(Records(t), responses[0].0);
      var t1 := if i < |Records(t)| then Put(t, Records(t)[i].(response := Some(responses[0].1), updatedAt := at)) else t;
      assert responses[0] == (responses[0].0, responses[0].1);
      ResponsesSet(cfg, t1, uid, responses[1..], at);
      RespondedNext(t, t1, SetResponses(t1, responses[1..], at), responses, at);
    }
  }

  /** What the Gateway answered to the request to end this execution. */
  function AnswerTo(r: Exec, answers: map<string, Dict>): Option<Dict>
  {
    if !Endable(r) then None
    else Some(if r.invocationId.value in answers then answers[r.invocationId.value] else FAILURE)
  }

  ghost predicate NameOfOne(name: string, records: seq<Exec>)
  {
    exists k :: 0 <= k < |records| && records[k].invocationId == Some(name)
  }

  /** Every answer is kept for the identity of one of the executions. */
  ghost predicate AnswersNamed(responses: seq<(string, Dict)>, records: seq<Exec>)
  {
    forall j :: 0 <= j < |responses| ==> NameOfOne(responses[j].0, records)
  }

  lemma NamedLater(responses: seq<(string, Dict)>, records: seq<Exec>)
    requires records != [] && AnswersNamed(responses, records[1..])
    ensures AnswersNamed(responses, records)
    ensures OwnNames(records) ==> forall j :: 0 <= j < |responses| ==> records[0].invocationId != Some(responses[j].0)
  {
    var rest := records[1..];
    forall j | 0 <= j < |responses|
      ensures NameOfOne(responses[j].0, records)
      ensures OwnNames(records) ==> records[0].invocationId != Some(responses[j].0)
    {
      assert NameOfOne(responses[j].0, rest);
      var k :| 0 <= k < |rest| && rest[k].invocationId == Some(responses[j].0);
      assert records[k + 1] == rest[k];
    }
  }

  lemma NamedFirst(first: (string, Dict), responses: seq<(string, Dict)>, records: seq<Exec>)
    requires records != [] && AnswersNamed(responses, records) && records[0].invocationId == Some(first.0)
    ensures AnswersNamed([first] + responses, records)
  {
    assert forall j :: 0 < j < |responses| + 1 ==> ([first] + responses)[j] == responses[j - 1];
  }

  lemma ResponsesParts(records: seq<Exec>, answers: map<string, Dict>)
    requires records != []
    ensures var later := CancelResponses(records[1..], answers);
            CancelResponses(records, answers) ==
            if Endable(records[0]) then [(records[0].invocationId.value, AnswerTo(records[0], answers).value)] + later else later
  {
    RecordFacts(records[0]);
  }

  lemma DistinctFirst(first: (string, Dict), later: seq<(string, Dict)>)
    requires DistinctNames(later) && forall j :: 0 <= j < |later| ==> later[j].0 != first.0
    ensures DistinctNames([first] + later)
  {
    var all := [first] + later;
    assert forall j :: 0 < j < |all| ==> all[j] == later[j - 1];
  }

  lemma ResponseLater(first: (string, Dict), later: seq<(string, Dict)>, r: Exec)
    ensures ResponseFor([first] + later, r) == if r.invocationId == Some(first.0) then Some(first.1) else ResponseFor(later, r)
  {
    assert ([first] + later)[1..] == later;
  }

  lemma {:induction false} CancelResponsesAnswer(records: seq<Exec>, answers: map<string, Dict>)
    requires OwnNames(records)
    ensures DistinctNames(CancelResponses(records, answers)) && AnswersNamed(CancelResponses(records, answers), records)
    ensures forall k :: 0 <= k < |records| ==> ResponseFor(CancelResponses(records, answers), records[k]) == AnswerTo(records[k], answers)
  {
    if records != [] {
      var rest := records[1..];
      var later, all := CancelResponses(rest, answers), CancelResponses(records, answers);
      CancelResponsesAnswer(rest, answers);
      NamedLater(later, records);
      ResponsesParts(records, answers);
      NoResponseFor(later, records[0]);
      if Endable(records[0]) {
        var first := (records[0].invocationId.value, AnswerTo(records[0], answers).value);
        hide Endable, CancelResponses, AnswersNamed, ResponseFor, DistinctNames;
        NamedFirst(first, later, records);
        assert DistinctNames([first] + later) by { DistinctFirst(first, later); }
        forall k | 0 <= k < |records| ensures ResponseFor(all, records[k]) == AnswerTo(records[k], answers) {
          ResponseLater(first, later, records[k]);
          if k > 0 { assert records[k] == rest[k - 1]; }
        }
      } else {
        hide Endable, CancelResponses, AnswersNamed, ResponseFor, DistinctNames;
        forall k | 0 <= k < |records| ensures ResponseFor(all, records[k]) == AnswerTo(records[k], answers) {
          if k > 0 { assert records[k] == rest[k - 1]; }
        }
      }
    }
  }

  lemma {:induction false} CancelPending(records: seq<Exec>, answers: map<string, Dict>)
    ensures CancelResponses(records, answers) != [] ==> SomeMustEnd(records)
  {
    if records != [] {
      var rest := records[1..];
      CancelPending(rest, answers);
      RecordFacts(records[0]);
      hide Cancellable, MustEnd;
      if SomeMustEnd(rest) {
        var k :| 0 <= k < |rest| && MustEnd(rest[k]);
        assert records[k + 1] == rest[k];
      }
    }
  }

  /** A cancellation that ran to its end. A closed task is left alone. Any other ends `cancelling` if it
      has an Action or a Session of its own, and `cancelled` at once if it has none; its records keep all
      but the answers to the requests made for them. No other task is touched. */
  lemma CancelledExactly(cfg: Config, w: World, c: Call, i: nat)
    requires Inv(cfg, w) && c.CancelTask? && i < |w.tasks| && Find(w.tasks, c.taskId) == i
    ensures var t, w' := w.tasks[i], StepWorld(cfg, w, Done(c));
            && |w'.tasks| == |w.tasks| && w'.posts == w.posts
            && (forall j :: 0 <= j < |w.tasks| && j != i ==> w'.tasks[j] == w.tasks[j])
            && if IsClosed(t) then w' == w
               else
                 var t' := w'.tasks[i];
                 && t'.status == (if SomeMustEnd(Records(t)) then Cancelling else TaskStatus.Cancelled)
                 && t' == t.(status := t'.status, cancellationRequested := true, revisions := t'.revisions)
                 && |Records(t')| == |Records(t)|
                 && (OwnNames(Records(t)) ==>
                       forall k :: 0 <= k < |Records(t)| ==>
                         Records(t')[k] == Responded(Records(t)[k], AnswerTo(Records(t)[k], c.answers), c.at))
  {
    var t := w.tasks[i];
    hide *;
    TaskFacts(t);
    CancelStarts(cfg, w, c, i);
    if IsClosed(t) {
      FinishNothing(w);
    } else {
      CancelRow(cfg, t, w.nextUid, c.answers, c.at);
      CancelledRows(cfg, w, c, i, CancelMutation(t, c.answers, c.at));
    }
  }

  lemma CancelStarts(cfg: Config, w: World, c: Call, i: nat)
    requires Inv(cfg, w) && c.CancelTask? && i < |w.tasks| && Find(w.tasks, c.taskId) == i
    ensures StepWorld(cfg, w, Done(c)) == Finish(w, CancelScript(cfg, w, c)) && Sound(cfg, w.tasks[i], w.nextUid)
    ensures Terminal(w.tasks[i]) ==> CancelScript(cfg, w, c) == []
  {
    hide Sound, PostsOk, OneActive, Terminal, CancelRequests, Release, Mutate;
  }

  lemma CancelledRows(cfg: Config, w: World, c: Call, i: nat, m: Mutation)
    requires c.CancelTask? && i < |w.tasks| && Find(w.tasks, c.taskId) == i && !Terminal(w.tasks[i])
    requires m == CancelMutation(w.tasks[i], c.answers, c.at)
    ensures var w' := Finish(w, CancelScript(cfg, w, c));
            w'.tasks == w.tasks[i := Mutate(w.tasks[i], m)] && w'.posts == w.posts
  {
    var t := w.tasks[i];
    var requests, release := CancelRequests(Records(t)), Release(cfg, Mutate(t, m));
    var first := Update(t.id, m);
    hide Mutate, Records, CancelMutation, CancelRequests, Release;
    assert CancelScript(cfg, w, c) == requests + ([first] + release);
    CancelRequestsFree(Records(t));
    QuietLegal(cfg, w, requests);
    var w1 := Finish(w, requests);
    assert w1.tasks == w.tasks && w1.posts == w.posts;
    FinishConcat(w, requests, [first] + release);
    FinishConcat(w1, [first], release);
    FinishOne(w1, first);
    ReleasedBindings(cfg, Apply(w1, first), Mutate(t, m));
  }

  /** The row before its responses are written. */
  function Called(t: Task, answers: map<string, Dict>): Task
  {
    t.(cancellationRequested := true,
       status := if CancelResponses(Records(t), answers) != [] || HasOwned(t) then Cancelling else CancelStatus(t))
  }

  lemma CalledStatus(t: Task, answers: map<string, Dict>)
    ensures Called(t, answers).status == if SomeMustEnd(Records(t)) then Cancelling else TaskStatus.Cancelled
  {
    CancelPending(Records(t), answers);
    TaskFacts(t);
    NothingToEnd(Records(t));
  }

  lemma CancelMutates(t: Task, answers: map<string, Dict>, at: int)
    ensures Mutate(t, CancelMutation(t, answers, at))
            == SetResponses(Called(t, answers), CancelResponses(Records(t), answers), at)
  {
    hide CancelResponses, SetResponses, HasOwned, CancelStatus, Records;
  }

  lemma CalledRecords(cfg: Config, t0: Task, uid: nat, records: seq<Exec>, answers: map<string, Dict>, at: int)
    requires Sound(cfg, t0, uid) && Records(t0) == records && OwnNames(records)
    ensures var t' := SetResponses(t0, CancelResponses(records, answers), at);
            |Records(t')| == |records|
            && forall k :: 0 <= k < |records| ==> Records(t')[k] == Responded(records[k], AnswerTo(records[k], answers), at)
  {
    hide Sound, Records, CancelResponses, SetResponses, OwnNames;
    CancelResponsesAnswer(records, answers);
    ResponsesSet(cfg, t0, uid, CancelResponses(records, answers), at);
  }

  lemma CancelRow(cfg: Config, t: Task, uid: nat, answers: map<string, Dict>, at: int)
    requires Sound(cfg, t, uid) && !Terminal(t)
    ensures var t' := Mutate(t, CancelMutation(t, answers, at));
            && t'.status == (if SomeMustEnd(Records(t)) then Cancelling else TaskStatus.Cancelled)
            && t' == t.(status := t'.status, cancellationRequested := true, revisions := t'.revisions)
            && |Records(t')| == |Records(t)|
            && (OwnNames(Records(t)) ==>
                  forall k :: 0 <= k < |Records(t)| ==>
                    Records(t')[k] == Responded(Records(t)[k], AnswerTo(Records(t)[k], answers), at))
  {
    var responses, t0 := CancelResponses(Records(t), answers), Called(t, answers);
    CalledStatus(t, answers);
    CancelMutates(t, answers, at);
    CancelHeader(cfg, t, t0, uid, answers);
    hide Sound, Records, HasOwned, CancelStatus, CancelResponses, SetResponses, Mutate, OwnNames, SomeMustEnd, AnswerTo,
         Responded, CancelMutation;
    SetResponsesHeader(t0, responses, at);
    SetResponsesSound(cfg, t0, uid, responses, at);
    if OwnNames(Records(t)) { CalledRecords(cfg, t0, uid, Records(t), answers, at); }
  }

  lemma NothingToEnd(records: seq<Exec>)
    ensures !SomeMustEnd(records) ==> AllCalledOff(records)
  {}

  lemma CancelHeader(cfg: Config, t: Task, t0: Task, uid: nat, answers: map<string, Dict>)
    requires Sound(cfg, t, uid) && !Terminal(t)
    requires t0 == t.(cancellationRequested := true,
                      status := if CancelResponses(Records(t), answers) != [] || HasOwned(t) then Cancelling else CancelStatus(t))
    ensures Sound(cfg, t0, uid) && Records(t0) == Records(t)
  {
    HeaderShape(t, t0, uid);
    hide CancelResponses;
  }

  lemma {:induction false} SetResponsesHeader(t: Task, responses: seq<(string, Dict)>, at: int)
    ensures var t' := SetResponses(t, responses, at); t' == t.(revisions := t'.revisions)
    decreases |responses|
  {
    if responses != [] {
      var i := InvocationIndex(Records(t), responses[0].0);
      var t1 := if i < |Records(t)| then Put(t, Records(t)[i].(response := Some(responses[0].1), updatedAt := at)) else t;
      hide Records;
      SetResponsesHeader(t1, responses[1..], at);
    }
  }

  // ---- Creation ----------------------------------------------------------------------------------

  /** Nothing but an open task stands against this creation. */
  predicate MayCreate(cfg: Config, c: Call)
    requires c.Create?
  {
    (c.mode == Off || cfg.verifier) && (cfg.bound ==> c.freeze.Frozen?) && Strip(c.description) != ""
  }

  ghost predicate AllClosed(w: World)
  {
    forall i :: 0 <= i < |w.tasks| ==> IsClosed(w.tasks[i])
  }

  /** A task as it starts: executing an empty first revision, in the mode that was asked for. */
  ghost predicate NewlyCreated(cfg: Config, w: World, t: Task, c: Call)
    requires c.Create?
  {
    && t.id == w.nextUid && t.description == Strip(c.description) && t.mode == c.mode && t.status == Executing
    && !t.cancellationRequested && t.verdict.None? && t.attempts == [] && t.replanDeadline.None?
    && t.beforeRef.None? && t.afterRef.None? && t.bundleRef.None?
    && t.binding == (if cfg.bound && c.freeze.Frozen? then Some(c.freeze.binding) else None)
    && |t.revisions| == 1 && t.activeRevisionId == t.revisions[0].id
    && t.revisions[0] == Revision(t.revisions[0].id, 1, "initial plan", BindingId(t), [], None, [], false)
  }

  /** A creation that ran to its end adds its row exactly when it may and every task is closed, and holds
      the binding; refused for an open task, it lets the binding go again. Nothing else changes. */
  lemma CreatedExactly(cfg: Config, w: World, c: Call)
    requires c.Create?
    ensures var w' := StepWorld(cfg, w, Done(c));
            var own := if MayCreate(cfg, c) && cfg.bound && cfg.tracked then {c.freeze.binding.id} else {};
            && w'.posts == w.posts && w'.controls == w.controls
            && w'.invocations == w.invocations && w'.sessions == w.sessions
            && if MayCreate(cfg, c) && AllClosed(w)
               then |w'.tasks| == |w.tasks| + 1 && w'.tasks[..|w.tasks|] == w.tasks
                    && NewlyCreated(cfg, w, w'.tasks[|w.tasks|], c) && w'.bindings == w.bindings + own
               else w'.tasks == w.tasks && w'.bindings == w.bindings - own
  {
    hide *;
    OpenFound(w);
    CreateSteps(cfg, w, c);
    if !MayCreate(cfg, c) {
      FinishNothing(w);
      assert w.bindings - {} == w.bindings;
    } else {
      var row := NewTask(w, c.description, c.mode, if cfg.bound then Some(c.freeze.binding) else None);
      StartsAsAsked(cfg, w, c);
      if cfg.bound && cfg.tracked {
        HeldThen(w, c.freeze.binding.id, row);
      } else if AllClosed(w) {
        FinishOne(w, Insert(row));
        Inserted(w, row);
        assert w.bindings + {} == w.bindings;
      } else {
        FinishNothing(w);
        assert w.bindings - {} == w.bindings;
      }
    }
  }

  lemma CreateSteps(cfg: Config, w: World, c: Call)
    requires c.Create?
    ensures StepWorld(cfg, w, Done(c)) == Finish(w, CreateScript(cfg, w, c))
    ensures MayCreate(cfg, c) ==> !cfg.bound || c.freeze.Frozen?
    ensures CreateScript(cfg, w, c) ==
            if !MayCreate(cfg, c) then []
            else
              var row := NewTask(w, c.description, c.mode, if cfg.bound then Some(c.freeze.binding) else None);
              if cfg.bound && cfg.tracked then
                [Track(Bindings, c.freeze.binding.id),
                 if ActiveTask(w.tasks) == |w.tasks| then Insert(row) else Untrack(Bindings, c.freeze.binding.id)]
              else if ActiveTask(w.tasks) == |w.tasks| then [Insert(row)] else []
  {
    hide Strip, NewTask, ActiveTask;
  }

  lemma StartsAsAsked(cfg: Config, w: World, c: Call)
    requires c.Create? && MayCreate(cfg, c)
    ensures NewlyCreated(cfg, w, NewTask(w, c.description, c.mode, if cfg.bound then Some(c.freeze.binding) else None), c)
  {
    hide Strip;
  }

  lemma Inserted(w: World, row: Task)
    ensures Apply(w, Insert(row)) == w.(tasks := w.tasks + [row], nextUid := w.nextUid + 2)
  {}

  lemma HeldThen(w: World, id: string, row: Task)
    ensures var w' := Finish(w, [Track(Bindings, id), Insert(row)]);
            w' == w.(tasks := w.tasks + [row], nextUid := w.nextUid + 2, bindings := w.bindings + {id})
    ensures Finish(w, [Track(Bindings, id), Untrack(Bindings, id)]) == w.(bindings := w.bindings - {id})
  {
    WholeTwo(w, [Track(Bindings, id), Insert(row)]);
    WholeTwo(w, [Track(Bindings, id), Untrack(Bindings, id)]);
    assert w.bindings + {id} - {id} == w.bindings - {id};
  }

  lemma WholeTwo(w: World, s: seq<Effect>)
    requires |s| == 2
    ensures Finish(w, s) == Apply(Apply(w, s[0]), s[1])
  {
    hide Apply;
    assert s == [s[0]] + [s[1]];
    FinishConcat(w, [s[0]], [s[1]]);
    FinishOne(w, s[0]);
    FinishOne(Apply(w, s[0]), s[1]);
  }

  lemma OpenFound(w: World)
    ensures ActiveTask(w.tasks) == |w.tasks| <==> AllClosed(w)
  {
    forall i | 0 <= i < |w.tasks| ensures IsClosed(w.tasks[i]) <==> Terminal(w.tasks[i]) { TaskFacts(w.tasks[i]); }
    hide IsClosed, Terminal;
  }

  /** Cancelling a task that started nothing but Queries and foreign Sessions makes room at once: whatever
      may be created next is created. */
  lemma CancelMakesRoom(cfg: Config, steps: seq<Step>, c: Call, next: Call, i: nat)
    requires c.CancelTask? && next.Create? && MayCreate(cfg, next)
    requires i < |Reached(cfg, steps).tasks| && Find(Reached(cfg, steps).tasks, c.taskId) == i
    requires !IsClosed(Reached(cfg, steps).tasks[i]) && !SomeMustEnd(Records(Reached(cfg, steps).tasks[i]))
    ensures var w' := StepWorld(cfg, Reached(cfg, steps), Done(c));
            var w'' := StepWorld(cfg, w', Done(next));
            && i < |w'.tasks| && w'.tasks[i].status == TaskStatus.Cancelled
            && |w''.tasks| == |w'.tasks| + 1 && w''.tasks[..|w'.tasks|] == w'.tasks
            && NewlyCreated(cfg, w', w''.tasks[|w'.tasks|], next)
  {
    var w := Reached(cfg, steps);
    ReachedInv(cfg, steps);
    CancelledExactly(cfg, w, c, i);
    var w' := StepWorld(cfg, w, Done(c));
    forall j | 0 <= j < |w'.tasks| ensures IsClosed(w'.tasks[j]) {
      if j != i {
        TaskFacts(w.tasks[i]);
        TaskFacts(w.tasks[j]);
        OnlyActive(cfg, w);
      }
    }
    hide Reached, Inv, StepWorld;
    CreatedExactly(cfg, w', next);
  }

  // ---- A new revision ------------------------------------------------------------------------------

  /** The last revision is closed and a new, empty one executes. */
  ghost predicate NextRevision(t: Task, t': Task, id: nat, reason: string)
  {
    var n := |t.revisions|;
    && n > 0 && |t'.revisions| == n + 1
    && t'.revisions[..n] == t.revisions[n - 1 := t.revisions[n - 1].(closed := true)]
    && t'.revisions[n] == Revision(id, n + 1, reason, BindingId(t), [], None, [], false)
    && t' == t.(revisions := t'.revisions, activeRevisionId := id, status := Executing, verdict := None,
                replanDeadline := None)
  }

  /** A revision that was asked for. Only a waiting task is touched: past its deadline it fails; with
      budget left and a reason it executes a new, empty revision, and the last one is closed. */
  lemma RevisedExactly(cfg: Config, w: World, c: Call, i: nat)
    requires Inv(cfg, w) && c.BeginRevision? && i < |w.tasks| && Find(w.tasks, c.taskId) == i
    ensures var t, w' := w.tasks[i], StepWorld(cfg, w, Done(c));
            && |w'.tasks| == |w.tasks| && w'.posts == w.posts && Records(w'.tasks[i]) == Records(t)
            && (forall j :: 0 <= j < |w.tasks| && j != i ==> w'.tasks[j] == w.tasks[j])
            && var n, t' := |t.revisions|, w'.tasks[i];
               if t.status != AwaitingReplan then w' == w
               else if t.replanDeadline.Some? && c.now >= t.replanDeadline.value then t' == t.(status := TaskStatus.Failed)
               else if n > cfg.maxReplans || Strip(c.reason) == "" then w' == w
               else NextRevision(t, t', w.nextUid, Strip(c.reason))
  {
    var t := w.tasks[i];
    hide *;
    RevisionSteps(cfg, w, c, i);
    if t.status != AwaitingReplan {
      FinishNothing(w);
    } else if t.replanDeadline.Some? && c.now >= t.replanDeadline.value {
      RowWritten(cfg, w, i, MFailReplan, Release(cfg, Mutate(t, MFailReplan)), Mutate(t, MFailReplan));
      ReplanFailed(t);
    } else if |t.revisions| > cfg.maxReplans || Strip(c.reason) == "" {
      FinishNothing(w);
    } else {
      var m := MBeginRevision(w.nextUid, Strip(c.reason));
      RowWritten(cfg, w, i, m, [], t);
      RevisionBegun(t, m);
      BeginRevisionShape(t, m);
    }
  }

  lemma RevisionSteps(cfg: Config, w: World, c: Call, i: nat)
    requires Inv(cfg, w) && c.BeginRevision? && i < |w.tasks| && Find(w.tasks, c.taskId) == i
    ensures var t := w.tasks[i];
            && StepWorld(cfg, w, Done(c)) == Finish(w, BeginRevisionScript(cfg, w, c)) && Ledger(t) && t.id == c.taskId
            && BeginRevisionScript(cfg, w, c) ==
               if t.status != AwaitingReplan then []
               else if t.replanDeadline.Some? && c.now >= t.replanDeadline.value then
                 [Update(t.id, MFailReplan)] + Release(cfg, Mutate(t, MFailReplan))
               else if |t.revisions| > cfg.maxReplans || Strip(c.reason) == "" then []
               else [Update(t.id, MBeginRevision(w.nextUid, Strip(c.reason)))] + []
  {
    assert Sound(cfg, w.tasks[i], w.nextUid);
    hide Inv, Strip, Release, Mutate;
  }

  /** One row written, and possibly a binding let go. */
  lemma RowWritten(cfg: Config, w: World, i: nat, m: Mutation, rest: seq<Effect>, t': Task)
    requires i < |w.tasks| && Find(w.tasks, w.tasks[i].id) == i && (rest == [] || rest == Release(cfg, t'))
    ensures var w' := Finish(w, [Update(w.tasks[i].id, m)] + rest);
            w'.tasks == w.tasks[i := Mutate(w.tasks[i], m)] && w'.posts == w.posts
  {
    var first := Update(w.tasks[i].id, m);
    hide Mutate, Release, Cut;
    FinishConcat(w, [first], rest);
    FinishOne(w, first);
    if rest == [] { FinishNothing(Apply(w, first)); } else { ReleasedBindings(cfg, Apply(w, first), t'); }
  }

  lemma ReplanFailed(t: Task)
    ensures Mutate(t, MFailReplan) == t.(status := TaskStatus.Failed)
    ensures Records(t.(status := TaskStatus.Failed)) == Records(t)
  {
    SameRevisionsRecords(t, t.(status := TaskStatus.Failed));
  }

  lemma RevisionBegun(t: Task, m: Mutation)
    requires Ledger(t) && m.MBeginRevision?
    ensures NextRevision(t, Mutate(t, m), m.revisionId, m.reason)
  {
    ActiveIsLast(t);
  }

  lemma SameRevisionsRecords(t: Task, t': Task)
    requires t'.revisions == t.revisions
    ensures Records(t') == Records(t)
  {}

  // ---- Observations and answers ---------------------------------------------------------------------

  /** The first execution of this kind with this identity, or none. */
  ghost predicate FirstOwn(records: seq<Exec>, k: nat, invocationId: string, semantics: Semantics)
  {
    && k <= |records|
    && (k < |records| ==> records[k].invocationId == Some(invocationId) && records[k].tool.semantics == semantics)
    && forall j :: 0 <= j < k ==> !(records[j].invocationId == Some(invocationId) && records[j].tool.semantics == semantics)
  }

  lemma FirstIsOwned(records: seq<Exec>, k: nat, invocationId: string, semantics: Semantics)
    requires FirstOwn(records, k, invocationId, semantics)
    ensures OwnedIndex(records, invocationId, semantics) == k
  {}

  /** One record of one row rewritten, nothing else. */
  ghost predicate OneRewritten(w: World, w': World, i: nat, k: nat, r: Exec)
  {
    OnlyRecords(w, w', i) && k < |Records(w.tasks[i])| && Records(w'.tasks[i]) == Records(w.tasks[i])[k := r]
  }

  /** An observed Action or Session takes over what the reply reports. An Action of a closed task does not;
      a proved end lets go of the identity. */
  lemma ObservationTaken(cfg: Config, w: World, i: nat, k: nat, invocationId: string, semantics: Semantics, response: Dict,
                        dropped: bool, at: int)
    requires Inv(cfg, w) && i < |w.tasks| && !semantics.Query?
    requires FirstOwn(Records(w.tasks[i]), k, invocationId, semantics)
    ensures var t := w.tasks[i];
            var c := if semantics == Action then ObserveAction(t.id, invocationId, response, dropped, at)
                     else ObserveSession(t.id, invocationId, response, dropped, at);
            var w' := StepWorld(cfg, w, Done(c));
            if k == |Records(t)| || (semantics == Action && IsClosed(t)) then w' == w
            else
              var r := Records(t)[k];
              var status := Reported(response).GetOr(r.status);
              var gone := if cfg.tracked && dropped && !IsOpen(status) && status != Unknown then {invocationId} else {};
              && OneRewritten(w, w', i, k, r.(status := status, response := Some(response), updatedAt := at))
              && w'.invocations == w.invocations - (if semantics == Action then gone else {})
              && w'.sessions == w.sessions - (if semantics == Session then gone else {})
              && w'.bindings == w.bindings
  {
    hide *;
    var t := w.tasks[i];
    RowFound(cfg, w, i);
    FirstIsOwned(Records(t), k, invocationId, semantics);
    FirstWithin(Records(t), k, invocationId, semantics);
    TaskFacts(t);
    ObservationIs(cfg, w, t.id, invocationId, semantics, response, dropped, at);
    ObserveSteps(cfg, w, i, k, invocationId, semantics, response, dropped, at);
    if k == |Records(t)| || (semantics == Action && IsClosed(t)) {
      FinishNothing(w);
    } else {
      var r := Records(t)[k];
      var status := StatusOf(response, r.status);
      StatusIsReported(response, r.status);
      RecordFacts(r.(status := status));
      ObservedRow(cfg, w, i, k, invocationId, semantics, response, dropped, at);
      var gone := if cfg.tracked && dropped && Definite(status) then [Untrack(TrackerOf(semantics), invocationId)] else [];
      SetsAfter(w, Update(t.id, MObserve(r.id, status, response, at)), gone, semantics, invocationId);
    }
  }

  lemma ObservationIs(cfg: Config, w: World, id: nat, invocationId: string, semantics: Semantics, response: Dict,
                      dropped: bool, at: int)
    requires !semantics.Query?
    ensures var c := if semantics == Action then ObserveAction(id, invocationId, response, dropped, at)
                     else ObserveSession(id, invocationId, response, dropped, at);
            StepWorld(cfg, w, Done(c)) == Finish(w, ObserveScript(cfg, w, id, invocationId, semantics, response, dropped, at))
  {
    hide ObserveScript;
  }

  lemma RowFound(cfg: Config, w: World, i: nat)
    requires Inv(cfg, w) && i < |w.tasks|
    ensures Find(w.tasks, w.tasks[i].id) == i
  {
    FindAt(w.tasks, i);
  }

  lemma ObserveSteps(cfg: Config, w: World, i: nat, k: nat, invocationId: string, semantics: Semantics, response: Dict,
                     dropped: bool, at: int)
    requires i < |w.tasks| && Find(w.tasks, w.tasks[i].id) == i && k == OwnedIndex(Records(w.tasks[i]), invocationId, semantics)
    ensures var t := w.tasks[i];
            var s := ObserveScript(cfg, w, t.id, invocationId, semantics, response, dropped, at);
            if k == |Records(t)| || (semantics == Action && Terminal(t)) then s == []
            else
              var r := Records(t)[k];
              var status := StatusOf(response, r.status);
              s == [Update(t.id, MObserve(r.id, status, response, at))]
                   + (if cfg.tracked && dropped && Definite(status) then [Untrack(TrackerOf(semantics), invocationId)] else [])
  {
    hide StatusOf, Records, Definite;
  }

  lemma ObservedRow(cfg: Config, w: World, i: nat, k: nat, invocationId: string, semantics: Semantics, response: Dict,
                    dropped: bool, at: int)
    requires Inv(cfg, w) && i < |w.tasks| && Find(w.tasks, w.tasks[i].id) == i && !semantics.Query?
    requires k == OwnedIndex(Records(w.tasks[i]), invocationId, semantics) < |Records(w.tasks[i])|
    requires semantics == Action ==> !Terminal(w.tasks[i])
    ensures var r := Records(w.tasks[i])[k];
            var s := ObserveScript(cfg, w, w.tasks[i].id, invocationId, semantics, response, dropped, at);
            OneRewritten(w, Finish(w, s), i, k,
                         r.(status := StatusOf(response, r.status), response := Some(response), updatedAt := at))
  {
    var t := w.tasks[i];
    var s := ObserveScript(cfg, w, t.id, invocationId, semantics, response, dropped, at);
    ObserveSteps(cfg, w, i, k, invocationId, semantics, response, dropped, at);
    hide Inv, Records, StatusOf, Definite, ObserveScript, OwnedIndex, Cut, EffectOk, IndexOf, Terminal;
    ObserveStep(cfg, w, t.id, invocationId, semantics, response, dropped, at);
    OneRewrite(cfg, w, s, 0);
  }

  lemma SetsAfter(w: World, first: Effect, gone: seq<Effect>, semantics: Semantics, id: string)
    requires first.Update? && !semantics.Query? && (gone == [] || gone == [Untrack(TrackerOf(semantics), id)])
    ensures var w' := Finish(w, [first] + gone);
            && w'.invocations == w.invocations - (if gone != [] && semantics == Action then {id} else {})
            && w'.sessions == w.sessions - (if gone != [] && semantics == Session then {id} else {})
            && w'.bindings == w.bindings
  {
    hide Mutate;
    if gone == [] {
      assert [first] + gone == [first];
      FinishOne(w, first);
    } else {
      WholeTwo(w, [first] + gone);
    }
  }

  /** The answer to a cancel request is kept with its Action while the task is open. */
  lemma CancelAnswerKept(cfg: Config, w: World, c: Call, i: nat, k: nat)
    requires Inv(cfg, w) && c.RecordCancel? && i < |w.tasks| && Find(w.tasks, c.taskId) == i
    requires FirstOwn(Records(w.tasks[i]), k, c.invocationId, Action)
    ensures var t, w' := w.tasks[i], StepWorld(cfg, w, Done(c));
            if k == |Records(t)| || IsClosed(t) then w' == w
            else OneRewritten(w, w', i, k, Records(t)[k].(response := Some(c.response), updatedAt := c.at))
                 && w'.controls == w.controls
  {
    hide Inv, Records, Terminal, IsClosed, FirstOwn, EffectOk, IndexOf, RecordCancelScript, Cut, OwnedIndex, Mutate,
         OneRewritten;
    var t, s := w.tasks[i], RecordCancelScript(w, c);
    assert StepWorld(cfg, w, Done(c)) == Finish(w, s);
    FirstIsOwned(Records(t), k, c.invocationId, Action);
    FirstWithin(Records(t), k, c.invocationId, Action);
    TaskFacts(t);
    CancelAnswerSteps(w, c, i, k);
    if k == |Records(t)| || IsClosed(t) {
      FinishNothing(w);
    } else {
      CancelAnswerRow(cfg, w, c, i, k);
    }
  }

  lemma FirstWithin(records: seq<Exec>, k: nat, invocationId: string, semantics: Semantics)
    requires FirstOwn(records, k, invocationId, semantics)
    ensures k <= |records|
  {}

  lemma CancelAnswerRow(cfg: Config, w: World, c: Call, i: nat, k: nat)
    requires Inv(cfg, w) && c.RecordCancel? && i < |w.tasks| && Find(w.tasks, c.taskId) == i && k < |Records(w.tasks[i])|
    requires RecordCancelScript(w, c) == [Update(w.tasks[i].id, MRespond(Records(w.tasks[i])[k].id, c.response, c.at))]
    ensures var w' := Finish(w, RecordCancelScript(w, c));
            OneRewritten(w, w', i, k, Records(w.tasks[i])[k].(response := Some(c.response), updatedAt := c.at))
            && w'.controls == w.controls
  {
    hide Inv, Records, EffectOk, IndexOf, RecordCancelScript, Cut;
    AnswerAllowed(cfg, w, i, k, c.response, c.at);
    var s := RecordCancelScript(w, c);
    OneRewrite(cfg, w, s, 0);
    hide Mutate;
    FinishOne(w, s[0]);
  }

  lemma CancelAnswerSteps(w: World, c: Call, i: nat, k: nat)
    requires c.RecordCancel? && i < |w.tasks| && Find(w.tasks, c.taskId) == i
    requires k == OwnedIndex(Records(w.tasks[i]), c.invocationId, Action)
    ensures var t := w.tasks[i];
            RecordCancelScript(w, c) == if k == |Records(t)| || Terminal(t) then []
                                        else [Update(t.id, MRespond(Records(t)[k].id, c.response, c.at))]
  {
    hide Records;
  }

  lemma AnswerAllowed(cfg: Config, w: World, i: nat, k: nat, response: Dict, at: int)
    requires Inv(cfg, w) && i < |w.tasks| && Find(w.tasks, w.tasks[i].id) == i && k < |Records(w.tasks[i])|
    ensures EffectOk(cfg, w, Update(w.tasks[i].id, MRespond(Records(w.tasks[i])[k].id, response, at)))
    ensures IndexOf(Records(w.tasks[i]), Records(w.tasks[i])[k].id) == k
  {
    var t := w.tasks[i];
    assert Sound(cfg, t, w.nextUid);
    hide Inv, Sound, Records;
    RecordAt(cfg, t, w.nextUid, k);
  }

  /** Only the task's own Session is asked to stop, once, and the answer is kept with it. */
  lemma StopAskedExactly(cfg: Config, w: World, c: Call, i: nat, k: nat)
    requires Inv(cfg, w) && c.StopSession? && i < |w.tasks| && Find(w.tasks, c.taskId) == i
    requires FirstOwn(Records(w.tasks[i]), k, c.invocationId, Session)
    ensures var t, w' := w.tasks[i], StepWorld(cfg, w, Done(c));
            if k == |Records(t)| || Records(t)[k].ownership != TaskOwned then w' == w
            else && w'.controls == w.controls + [StopRequest(c.invocationId)]
                 && if c.answer.None? then w' == w.(controls := w'.controls)
                    else OneRewritten(w, w', i, k, Records(t)[k].(response := c.answer, updatedAt := c.at))
  {
    var t := w.tasks[i];
    FirstIsOwned(Records(t), k, c.invocationId, Session);
    FirstWithin(Records(t), k, c.invocationId, Session);
    hide Inv, Records, FirstOwn, OwnedIndex, Cut, StopSessionScript, OneRewritten;
    StopSteps(cfg, w, c, i, k);
    if k == |Records(t)| || Records(t)[k].ownership != TaskOwned {
      FinishNothing(w);
    } else if c.answer.None? {
      FinishOne(w, Ask(StopRequest(c.invocationId)));
    } else {
      StopRow(cfg, w, c, i, k);
    }
  }

  lemma StopSteps(cfg: Config, w: World, c: Call, i: nat, k: nat)
    requires c.StopSession? && i < |w.tasks| && Find(w.tasks, c.taskId) == i
    requires k == OwnedIndex(Records(w.tasks[i]), c.invocationId, Session)
    ensures StepWorld(cfg, w, Done(c)) == Finish(w, StopSessionScript(w, c))
    ensures var t, ask := w.tasks[i], Ask(StopRequest(c.invocationId));
            StopSessionScript(w, c) == if k == |Records(t)| || Records(t)[k].ownership != TaskOwned then []
                                       else if c.answer.None? then [ask]
                                       else [ask, Update(t.id, MRespond(Records(t)[k].id, c.answer.value, c.at))]
  {
    hide Records;
  }

  lemma StopRow(cfg: Config, w: World, c: Call, i: nat, k: nat)
    requires Inv(cfg, w) && c.StopSession? && i < |w.tasks| && Find(w.tasks, c.taskId) == i && k < |Records(w.tasks[i])|
    requires c.answer.Some?
    requires StopSessionScript(w, c) == [Ask(StopRequest(c.invocationId)),
                                         Update(w.tasks[i].id, MRespond(Records(w.tasks[i])[k].id, c.answer.value, c.at))]
    ensures var w' := Finish(w, StopSessionScript(w, c));
            && w'.controls == w.controls + [StopRequest(c.invocationId)]
            && OneRewritten(w, w', i, k, Records(w.tasks[i])[k].(response := c.answer, updatedAt := c.at))
  {
    hide Inv, Records, EffectOk, IndexOf, StopSessionScript, Cut;
    var s := StopSessionScript(w, c);
    AnswerAllowed(cfg, w, i, k, c.answer.value, c.at);
    OneRewrite(cfg, w, s, 1);
    hide Mutate;
    WholeTwo(w, s);
  }
}
