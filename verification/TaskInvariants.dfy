/** What every store transaction keeps: the revision ledger, the replan budget, the
    cancellation latch, the meaning of success, and the history of every record. */
module TaskInvariants {
  import opened Common
  import opened AgentTask
  import opened Protocol

  // ---- Flattened records -----------------------------------------------------------------

  lemma {:induction false} IndexOfConcat(a: seq<Exec>, b: seq<Exec>, id: nat)
    ensures IndexOf(a + b, id) ==
            if IndexOf(a, id) < |a| then IndexOf(a, id) else |a| + IndexOf(b, id)
  {
    if a == [] {
      assert a + b == b;
    } else {
      assert (a + b)[1..] == a[1..] + b;
      IndexOfConcat(a[1..], b, id);
    }
  }

  /** Writing a record through the nested revisions is writing it in the flat list. */
  lemma {:induction false} FlattenPut(revisions: seq<Revision>, rec: Exec)
    ensures var flat := Flatten(revisions);
            var i := IndexOf(flat, rec.id);
            Flatten(PutIn(revisions, rec)) == if i < |flat| then flat[i := rec] else flat
  {
    if revisions != [] {
      var head, tail := revisions[0].records, Flatten(revisions[1..]);
      IndexOfConcat(head, tail, rec.id);
      FlattenPut(revisions[1..], rec);
      var r := PutIn(revisions, rec);
      if IndexOf(head, rec.id) < |head| {
        assert r[1..] == revisions[1..];
      } else {
        assert r[1..] == PutIn(revisions[1..], rec);
      }
    }
  }

  lemma {:induction false} NestedIn(revisions: seq<Revision>, k: nat, j: nat)
    requires k < |revisions| && j < |revisions[k].records|
    ensures revisions[k].records[j] in Flatten(revisions)
  {
    if k > 0 { NestedIn(revisions[1..], k - 1, j); }
  }

  predicate SameHeader(a: Revision, b: Revision)
  {
    a.(records := []) == b.(records := [])
  }

  /** Headers stay, and every nested record is the old one or the new one over the same id. */
  lemma {:induction false} PutInShape(revisions: seq<Revision>, rec: Exec)
    ensures var r := PutIn(revisions, rec);
            forall k :: 0 <= k < |r| ==>
              && SameHeader(r[k], revisions[k]) && |r[k].records| == |revisions[k].records|
              && forall j :: 0 <= j < |r[k].records| ==>
                   || r[k].records[j] == revisions[k].records[j]
                   || (r[k].records[j] == rec && revisions[k].records[j].id == rec.id)
  {
    if revisions != [] {
      var i := IndexOf(revisions[0].records, rec.id);
      if i == |revisions[0].records| { PutInShape(revisions[1..], rec); }
    }
  }

  lemma {:induction false} FlattenSplit(a: seq<Revision>, b: seq<Revision>)
    ensures Flatten(a + b) == Flatten(a) + Flatten(b)
  {
    if a == [] {
      assert a + b == b;
    } else {
      assert (a + b)[1..] == a[1..] + b;
      FlattenSplit(a[1..], b);
    }
  }

  lemma FlattenLast(revisions: seq<Revision>, last: Revision)
    requires revisions != []
    ensures Flatten(revisions[|revisions| - 1 := last]) ==
            Flatten(revisions[..|revisions| - 1]) + last.records
    ensures Flatten(revisions) ==
            Flatten(revisions[..|revisions| - 1]) + revisions[|revisions| - 1].records
  {
    var front := revisions[..|revisions| - 1];
    assert revisions == front + [revisions[|revisions| - 1]];
    assert revisions[|revisions| - 1 := last] == front + [last];
    assert [last][1..] == [] && [revisions[|revisions| - 1]][1..] == [];
    FlattenSplit(front, [last]);
    FlattenSplit(front, [revisions[|revisions| - 1]]);
  }

  // ---- Attempts --------------------------------------------------------------------------

  function AllAttempts(revisions: seq<Revision>): seq<Attempt>
  {
    if revisions == [] then [] else revisions[0].attempts + AllAttempts(revisions[1..])
  }

  lemma {:induction false} AttemptsSplit(a: seq<Revision>, b: seq<Revision>)
    ensures AllAttempts(a + b) == AllAttempts(a) + AllAttempts(b)
  {
    if a == [] {
      assert a + b == b;
    } else {
      assert (a + b)[1..] == a[1..] + b;
      AttemptsSplit(a[1..], b);
    }
  }

  lemma AttemptsLast(revisions: seq<Revision>, last: Revision)
    requires revisions != []
    ensures AllAttempts(revisions[|revisions| - 1 := last]) ==
            AllAttempts(revisions[..|revisions| - 1]) + last.attempts
    ensures AllAttempts(revisions) ==
            AllAttempts(revisions[..|revisions| - 1]) + revisions[|revisions| - 1].attempts
  {
    var front := revisions[..|revisions| - 1];
    assert revisions == front + [revisions[|revisions| - 1]];
    assert revisions[|revisions| - 1 := last] == front + [last];
    assert [last][1..] == [] && [revisions[|revisions| - 1]][1..] == [];
    AttemptsSplit(front, [last]);
    AttemptsSplit(front, [revisions[|revisions| - 1]]);
  }

  lemma {:induction false} AttemptsHeaders(a: seq<Revision>, b: seq<Revision>)
    requires |a| == |b| && forall k :: 0 <= k < |a| ==> a[k].attempts == b[k].attempts
    ensures AllAttempts(a) == AllAttempts(b)
  {
    if a != [] { AttemptsHeaders(a[1..], b[1..]); }
  }

  // ---- The invariant of one task ------------------------------------------------------------

  /** Revisions are numbered from one, the last is the active one, exactly the earlier ones are
      closed, and the task's attempts are those of its revisions in order. */
  ghost predicate Ledger(t: Task)
  {
    && t.revisions != []
    && (forall k :: 0 <= k < |t.revisions| ==>
          && t.revisions[k].number == k + 1
          && (t.revisions[k].closed <==> k < |t.revisions| - 1)
          && t.revisions[k].bindingId == BindingId(t))
    && (forall k, l :: 0 <= k < l < |t.revisions| ==> t.revisions[k].id != t.revisions[l].id)
    && t.activeRevisionId == t.revisions[|t.revisions| - 1].id
    && t.attempts == AllAttempts(t.revisions)
  }

  ghost predicate Listed(tools: seq<ToolSpec>, tool: ToolSpec)
  {
    exists k :: 0 <= k < |tools|
      && tool.toolId == Strip(tools[k].toolId) && tool.semantics == tools[k].semantics
      && tool.sha == tools[k].sha
  }

  /** A record's Tool identifier is stripped; in a bound task it names the one binding and a
      Tool that binding lists. */
  ghost predicate BoundRecord(t: Task, r: Exec)
  {
    Strip(r.tool.toolId) == r.tool.toolId
    && r.bindingId == BindingId(t) && (t.binding.Some? ==> Listed(t.binding.value.tools, r.tool))
  }

  /** A remote execution whose identity was never learnt is still pending or given up as unknown. */
  predicate Anonymous(r: Exec)
  {
    r.invocationId.None? && !r.tool.semantics.Query? ==> r.status.Pending? || r.status.Unknown?
  }

  ghost predicate RecordsOk(t: Task, uid: nat)
  {
    && t.id < uid
    && (forall k :: 0 <= k < |t.revisions| ==> t.revisions[k].id < uid)
    && (forall i :: 0 <= i < |Records(t)| ==> 
          Records(t)[i].id < uid && BoundRecord(t, Records(t)[i]) && Anonymous(Records(t)[i]))
    && (forall i, j :: 0 <= i < j < |Records(t)| ==> Records(t)[i].id != Records(t)[j].id)
    && CallersOk(t)
  }

  /** A record's caller identity names its task, the revision it sits in, and itself. */
  ghost predicate CallersOk(t: Task)
  {
    forall k, j :: 0 <= k < |t.revisions| && 0 <= j < |t.revisions[k].records| ==>
      t.revisions[k].records[j].caller == Caller(t.id, t.revisions[k].id, t.revisions[k].records[j].id)
  }

  ghost predicate Budget(cfg: Config, t: Task)
  {
    && |t.revisions| <= cfg.maxReplans + 1
    && (t.status.AwaitingReplan? ==>
          t.mode.Recovery? && t.replanDeadline.Some? && |t.revisions| - 1 < cfg.maxReplans)
  }

  ghost predicate Latch(t: Task)
  {
    && (t.status.Cancelling? || t.status.Cancelled? ==> t.cancellationRequested)
    && (t.cancellationRequested ==> t.status.Cancelling? || t.status.Cancelled? || t.status.Failed?)
    && (t.status.Cancelled? ==>
          forall i :: 0 <= i < |Records(t)| && Records(t)[i].tool.semantics.Action? ==>
            Records(t)[i].status.Cancelled? || Records(t)[i].status.Stopped?)
  }

  /** What `succeeded` means in each verification mode. */
  ghost predicate Earned(t: Task)
  {
    t.status.Succeeded? ==>
      && Records(t) != []
      && (t.mode.Off? || t.mode.Audit? ==>
            forall i :: 0 <= i < |Records(t)| && !Records(t)[i].tool.semantics.Session? ==>
              Records(t)[i].status.Succeeded?)
      && (t.mode.Enforce? || t.mode.Recovery? ==>
            && t.verdict.Some? && t.verdict.value.name.Success?
            && t.revisions != [] && t.revisions[|t.revisions| - 1].verdict == t.verdict)
  }

  ghost predicate Sound(cfg: Config, t: Task, uid: nat)
  {
    Ledger(t) && RecordsOk(t, uid) && Budget(cfg, t) && Latch(t) && Earned(t)
  }

  // ---- History ---------------------------------------------------------------------------

  /** A record keeps its identity, a remote identity once learnt, and an unknown outcome that
      no remote identity could ever clear up. */
  ghost predicate SameRecord(a: Exec, b: Exec)
  {
    && a.id == b.id && a.caller == b.caller && a.tool == b.tool && a.bindingId == b.bindingId
    && a.ownership == b.ownership && a.arguments == b.arguments
    && (a.invocationId.Some? ==> b.invocationId == a.invocationId)
    && (a.status.Unknown? && a.invocationId.None? ==> b.status.Unknown? && b.invocationId.None?)
  }

  ghost predicate SameRevision(a: Revision, b: Revision)
  {
    && a.id == b.id && a.number == b.number && a.reason == b.reason
    && (a.closed ==> b.closed && b.verdict == a.verdict && b.attempts == a.attempts
                     && |b.records| == |a.records|)
  }

  ghost predicate RevisionsEvolve(a: seq<Revision>, b: seq<Revision>)
  {
    |a| <= |b| && forall k :: 0 <= k < |a| ==> SameRevision(a[k], b[k])
  }

  ghost predicate RecordsEvolve(a: seq<Exec>, b: seq<Exec>)
  {
    |a| <= |b| && forall i :: 0 <= i < |a| ==> SameRecord(a[i], b[i])
  }

  ghost predicate SameFacts(a: seq<Exec>, b: seq<Exec>)
  {
    |a| == |b|
    && forall i :: 0 <= i < |a| && !a[i].tool.semantics.Session? ==> b[i].status == a[i].status
  }

  /** Cancellation closes the list of records; termination also freezes status, verdict and every
      Query and Action fact. */
  ghost predicate Sealed(t: Task, t': Task)
  {
    && (t.cancellationRequested ==> t'.cancellationRequested && |Records(t')| == |Records(t)|)
    && (Terminal(t) ==>
          && t'.status == t.status && t'.verdict == t.verdict
          && |t'.revisions| == |t.revisions| && SameFacts(Records(t), Records(t')))
  }

  /** How a task may change over any stretch of its life. */
  ghost predicate Evolves(t: Task, t': Task)
  {
    && t'.id == t.id && t'.mode == t.mode && t'.binding == t.binding && t'.description == t.description
    && t.attempts <= t'.attempts
    && RevisionsEvolve(t.revisions, t'.revisions)
    && RecordsEvolve(Records(t), Records(t'))
    && Sealed(t, t')
  }

  /** A later version of the task that is still sound. */
  ghost predicate Stays(cfg: Config, t: Task, t': Task, uid: nat)
  {
    Sound(cfg, t', uid) && Evolves(t, t')
  }

  lemma EvolvesTransitive(a: Task, b: Task, c: Task)
    requires Evolves(a, b) && Evolves(b, c)
    ensures Evolves(a, c)
  {}

  // ---- Transactions that rewrite one record ---------------------------------------------------

  ghost predicate RecordStep(t: Task, a: Exec, b: Exec)
  {
    SameRecord(a, b) && Anonymous(b) && (Terminal(t) && !a.tool.semantics.Session? ==> b.status == a.status)
  }

  lemma PutRecords(t: Task, i: nat, rec: Exec)
    requires i < |Records(t)| && rec.id == Records(t)[i].id
    requires forall k, l :: 0 <= k < l < |Records(t)| ==> Records(t)[k].id != Records(t)[l].id
    ensures Records(Put(t, rec)) == Records(t)[i := rec]
  {
    FlattenPut(t.revisions, rec);
    var k := IndexOf(Records(t), rec.id);
    assert k == i;
  }

  lemma PutLedger(t: Task, rec: Exec)
    requires Ledger(t)
    ensures Ledger(Put(t, rec))
  {
    var t' := Put(t, rec);
    PutInShape(t.revisions, rec);
    assert forall k :: 0 <= k < |t.revisions| ==> SameHeader(t'.revisions[k], t.revisions[k]);
    AttemptsHeaders(t.revisions, t'.revisions);
  }

  lemma PutCallers(t: Task, i: nat, rec: Exec)
    requires CallersOk(t) && i < |Records(t)|
    requires rec.id == Records(t)[i].id && rec.caller == Records(t)[i].caller
    requires forall k, l :: 0 <= k < l < |Records(t)| ==> Records(t)[k].id != Records(t)[l].id
    ensures CallersOk(Put(t, rec))
  {
    var t' := Put(t, rec);
    PutInShape(t.revisions, rec);
    forall k, j | 0 <= k < |t'.revisions| && 0 <= j < |t'.revisions[k].records|
      ensures t'.revisions[k].records[j].caller
              == Caller(t.id, t'.revisions[k].id, t'.revisions[k].records[j].id)
    {
      assert SameHeader(t'.revisions[k], t.revisions[k]);
      NestedIn(t.revisions, k, j);
    }
  }

  lemma PutRecordsOk(t: Task, uid: nat, i: nat, rec: Exec)
    requires RecordsOk(t, uid) && i < |Records(t)| && SameRecord(Records(t)[i], rec) && Anonymous(rec)
    ensures RecordsOk(Put(t, rec), uid)
  {
    var t' := Put(t, rec);
    PutRecords(t, i, rec);
    PutCallers(t, i, rec);
    PutInShape(t.revisions, rec);
    assert forall k :: 0 <= k < |t.revisions| ==> SameHeader(t'.revisions[k], t.revisions[k]);
    assert BoundRecord(t, Records(t)[i]);
    assert forall k :: 0 <= k < |Records(t')| ==> BoundRecord(t', Records(t')[k]);
  }

  lemma PutEvolves(t: Task, uid: nat, i: nat, rec: Exec)
    requires RecordsOk(t, uid) && i < |Records(t)| && RecordStep(t, Records(t)[i], rec)
    ensures Evolves(t, Put(t, rec))
  {
    var t' := Put(t, rec);
    PutRecords(t, i, rec);
    PutInShape(t.revisions, rec);
    forall k | 0 <= k < |t.revisions| ensures SameRevision(t.revisions[k], t'.revisions[k]) {
      assert SameHeader(t'.revisions[k], t.revisions[k]);
    }
  }

  lemma PutSound(cfg: Config, t: Task, uid: nat, i: nat, rec: Exec)
    requires Sound(cfg, t, uid) && i < |Records(t)| && RecordStep(t, Records(t)[i], rec)
    ensures Records(Put(t, rec)) == Records(t)[i := rec]
    ensures Stays(cfg, t, Put(t, rec), uid)
  {
    PutRecords(t, i, rec);
    PutLedger(t, rec);
    PutRecordsOk(t, uid, i, rec);
    PutEvolves(t, uid, i, rec);
    assert Earned(Put(t, rec)) by {
      PutInShape(t.revisions, rec);
      if t.status.Succeeded? { assert SameHeader(Put(t, rec).revisions[|t.revisions| - 1], t.revisions[|t.revisions| - 1]); }
    }
  }

  /** Nothing but responses and times differ. */
  ghost predicate OnlyResponses(a: seq<Exec>, b: seq<Exec>)
  {
    |a| == |b|
    && forall i :: 0 <= i < |a| ==> b[i].status == a[i].status && b[i].invocationId == a[i].invocationId
  }

  lemma RespondSound(cfg: Config, t: Task, uid: nat, i: nat, reply: Dict, at: int)
    requires Sound(cfg, t, uid) && i < |Records(t)|
    ensures var t' := Put(t, Records(t)[i].(response := Some(reply), updatedAt := at));
            Stays(cfg, t, t', uid) && OnlyResponses(Records(t), Records(t'))
  {
    PutSound(cfg, t, uid, i, Records(t)[i].(response := Some(reply), updatedAt := at));
  }

  lemma {:induction false} SetResponsesSound(cfg: Config, t: Task, uid: nat, responses: seq<(string, Dict)>, at: int)
    requires Sound(cfg, t, uid)
    ensures Stays(cfg, t, SetResponses(t, responses, at), uid)
    ensures OnlyResponses(Records(t), Records(SetResponses(t, responses, at)))
    decreases |responses|
  {
    if responses != [] {
      var i := InvocationIndex(Records(t), responses[0].0);
      if i < |Records(t)| {
        var t' := Put(t, Records(t)[i].(response := Some(responses[0].1), updatedAt := at));
        assert SetResponses(t, responses, at) == SetResponses(t', responses[1..], at);
        RespondSound(cfg, t, uid, i, responses[0].1, at);
        SetResponsesSound(cfg, t', uid, responses[1..], at);
        EvolvesTransitive(t, t', SetResponses(t, responses, at));
      } else {
        SetResponsesSound(cfg, t, uid, responses[1..], at);
      }
    }
  }

  // ---- The conditions under which the coordinator commits each closure --------------------------

  ghost predicate FreshIntent(t: Task, uid: nat, rec: Exec)
  {
    && rec.id == uid && rec.caller == Caller(t.id, t.activeRevisionId, rec.id)
    && rec.status.Pending? && rec.invocationId.None? && BoundRecord(t, rec)
  }

  ghost predicate OpenRecord(t: Task, id: nat)
  {
    var i := IndexOf(Records(t), id);
    i < |Records(t)| && !Terminal(t) && !ToolTerminal(Records(t)[i].status)
  }

  ghost predicate Permitted(cfg: Config, t: Task, uid: nat, m: Mutation)
  {
    match m
    case MAppend(rec) => t.status.Executing? && FreshIntent(t, uid, rec)
    case MFinish(id, status, inv, _, _, _) =>
      && OpenRecord(t, id)
      && var r := Records(t)[IndexOf(Records(t), id)];
         && (r.tool.semantics.Query? || status.Unknown?)
         && (r.invocationId.None? || inv.None? || inv == r.invocationId)
    case MAccept(id, _, _, _, _) =>
      OpenRecord(t, id) && Records(t)[IndexOf(Records(t), id)].invocationId.None?
    case MObserve(id, _, _, _) =>
      && var i := IndexOf(Records(t), id);
         && i < |Records(t)| && Records(t)[i].invocationId.Some?
         && !Records(t)[i].tool.semantics.Query?
         && (Terminal(t) ==> Records(t)[i].tool.semantics.Session?)
    case MRespond(id, _, _) => IndexOf(Records(t), id) < |Records(t)|
    case MBefore(_) => true
    case MAfter(_, _) => true
    case MCancel(pending, _, _) => !Terminal(t) && (pending ==> HasOwned(t))
    case MSetStatus(to) =>
      && !Terminal(t)
      && (|| (t.cancellationRequested && to == CancelStatus(t))
          || (!t.cancellationRequested && t.mode.Off? && Records(t) != []
              && to == if FactsSucceeded(t) then TaskStatus.Succeeded else TaskStatus.Failed))
    case MVerified(_, _, maxReplans, _) =>
      && !Terminal(t) && !t.cancellationRequested && !t.mode.Off? && Records(t) != []
      && maxReplans == cfg.maxReplans
    case MVerificationError(to, _) =>
      && !Terminal(t) && !t.cancellationRequested && !t.mode.Off? && Records(t) != []
      && to == if t.mode.Audit? && FactsSucceeded(t) then TaskStatus.Succeeded else TaskStatus.Failed
    case MBeginRevision(id, _) => t.status.AwaitingReplan? && |t.revisions| - 1 < cfg.maxReplans && id == uid
    case MFailReplan => t.status.AwaitingReplan?
  }

  /** The transaction kept the task sound and respected its history. */
  ghost predicate Kept(cfg: Config, t: Task, uid: nat, m: Mutation)
  {
    Stays(cfg, t, Mutate(t, m), uid + Drawn(m))
  }

  lemma ActiveIsLast(t: Task)
    requires Ledger(t)
    ensures ActiveIndex(t.revisions, t.activeRevisionId) == |t.revisions| - 1
  {}

  /** The last revision rewritten in place, with the task's attempts kept in step. */
  function WithLast(t: Task, last: Revision): Task
    requires t.revisions != []
  {
    t.(revisions := t.revisions[|t.revisions| - 1 := last],
       attempts := AllAttempts(t.revisions[..|t.revisions| - 1]) + last.attempts)
  }

  /** Rewriting the active revision: only its records and attempts may grow. */
  lemma LastLedger(t: Task, uid: nat, last: Revision)
    requires Ledger(t) && RecordsOk(t, uid)
    requires var old' := t.revisions[|t.revisions| - 1];
             && last.id == old'.id && last.number == old'.number && last.closed == old'.closed
             && last.bindingId == old'.bindingId
    ensures Ledger(WithLast(t, last))
    ensures Records(WithLast(t, last)) == Flatten(t.revisions[..|t.revisions| - 1]) + last.records
    ensures Records(t) ==
            Flatten(t.revisions[..|t.revisions| - 1]) + t.revisions[|t.revisions| - 1].records
    ensures t.attempts ==
            AllAttempts(t.revisions[..|t.revisions| - 1]) + t.revisions[|t.revisions| - 1].attempts
  {
    FlattenLast(t.revisions, last);
    AttemptsLast(t.revisions, last);
  }

  lemma AppendRecordsOk(t: Task, uid: nat, rec: Exec)
    requires Ledger(t) && RecordsOk(t, uid) && FreshIntent(t, uid, rec)
    ensures var t' := Mutate(t, MAppend(rec));
            Records(t') == Records(t) + [rec] && Ledger(t') && RecordsOk(t', uid + 1)
  {
    ActiveIsLast(t);
    var n := |t.revisions| - 1;
    var last := t.revisions[n].(records := t.revisions[n].records + [rec]);
    LastLedger(t, uid, last);
    assert Mutate(t, MAppend(rec)) == WithLast(t, last);
  }

  lemma AppendSound(cfg: Config, t: Task, uid: nat, rec: Exec)
    requires Sound(cfg, t, uid) && t.status.Executing? && FreshIntent(t, uid, rec)
    ensures Records(Mutate(t, MAppend(rec))) == Records(t) + [rec] && Kept(cfg, t, uid, MAppend(rec))
  {
    AppendRecordsOk(t, uid, rec);
    ActiveIsLast(t);
  }

  /** A verification attempt recorded on the task and on its active revision alike. */
  lemma GradedShape(t: Task, t': Task, uid: nat, attempt: Attempt)
    requires Ledger(t) && RecordsOk(t, uid) && |t'.revisions| == |t.revisions|
    requires var n := |t.revisions| - 1;
             && t'.revisions[..n] == t.revisions[..n]
             && t'.revisions[n] == t.revisions[n].(verdict := t'.revisions[n].verdict,
                                                   attempts := t.revisions[n].attempts + [attempt])
    requires t'.id == t.id && t'.binding == t.binding && t'.activeRevisionId == t.activeRevisionId
    requires t'.attempts == t.attempts + [attempt]
    ensures Ledger(t') && RecordsOk(t', uid) && Records(t') == Records(t)
    ensures RevisionsEvolve(t.revisions, t'.revisions) && RecordsEvolve(Records(t), Records(t'))
  {
    var n := |t.revisions| - 1;
    var last := t'.revisions[n];
    assert t'.revisions == t.revisions[n := last];
    LastLedger(t, uid, last);
    assert Records(t') == Records(t);
    GradedRecords(t, t', uid);
  }

  lemma GradedRecords(t: Task, t': Task, uid: nat)
    requires RecordsOk(t, uid) && Records(t') == Records(t) && t'.id == t.id && t'.binding == t.binding
    requires |t'.revisions| == |t.revisions|
    requires forall k :: 0 <= k < |t.revisions| ==>
               t'.revisions[k].id == t.revisions[k].id && t'.revisions[k].records == t.revisions[k].records
    ensures RecordsOk(t', uid)
  {}

  lemma VerifiedSound(cfg: Config, t: Task, uid: nat, m: Mutation)
    requires Sound(cfg, t, uid) && m.MVerified? && Permitted(cfg, t, uid, m)
    ensures Kept(cfg, t, uid, m)
  {
    ActiveIsLast(t);
    GradedShape(t, Mutate(t, m), uid, m.attempt);
  }

  lemma VerificationErrorSound(cfg: Config, t: Task, uid: nat, m: Mutation)
    requires Sound(cfg, t, uid) && m.MVerificationError? && Permitted(cfg, t, uid, m)
    ensures Kept(cfg, t, uid, m)
  {
    ActiveIsLast(t);
    GradedShape(t, Mutate(t, m), uid, m.attempt);
  }

  /** Closing the active revision and opening an empty one moves no record and no attempt. */
  lemma BeginRevisionShape(t: Task, m: Mutation)
    requires Ledger(t) && m.MBeginRevision?
    ensures var t' := Mutate(t, m);
            Records(t') == Records(t) && AllAttempts(t'.revisions) == AllAttempts(t.revisions)
  {
    ActiveIsLast(t);
    var n := |t.revisions| - 1;
    var closing := t.revisions[n].(closed := true);
    var next := Revision(m.revisionId, n + 2, m.reason, BindingId(t), [], None, [], false);
    FlattenLast(t.revisions, closing);
    AttemptsLast(t.revisions, closing);
    FlattenSplit(t.revisions[n := closing], [next]);
    AttemptsSplit(t.revisions[n := closing], [next]);
    assert Flatten([next]) == [] && AllAttempts([next]) == [];
  }

  lemma BeginRevisionLedger(t: Task, uid: nat, m: Mutation)
    requires Ledger(t) && RecordsOk(t, uid) && m.MBeginRevision? && m.revisionId == uid
    ensures Ledger(Mutate(t, m))
  {
    BeginRevisionShape(t, m);
    ActiveIsLast(t);
  }

  lemma BeginRevisionRecords(t: Task, uid: nat, m: Mutation)
    requires Ledger(t) && RecordsOk(t, uid) && m.MBeginRevision? && m.revisionId == uid
    ensures RecordsOk(Mutate(t, m), uid + 1)
  {
    BeginRevisionShape(t, m);
    ActiveIsLast(t);
    var t' := Mutate(t, m);
    assert forall i :: 0 <= i < |Records(t)| ==> BoundRecord(t, Records(t)[i]);
    assert CallersOk(t');
  }

  lemma BeginRevisionEvolves(t: Task, m: Mutation)
    requires Ledger(t) && !t.cancellationRequested && !Terminal(t) && m.MBeginRevision?
    ensures Evolves(t, Mutate(t, m))
  {
    BeginRevisionShape(t, m);
    ActiveIsLast(t);
    assert RevisionsEvolve(t.revisions, Mutate(t, m).revisions);
  }

  lemma BeginRevisionSound(cfg: Config, t: Task, uid: nat, m: Mutation)
    requires Sound(cfg, t, uid) && m.MBeginRevision? && Permitted(cfg, t, uid, m)
    ensures Kept(cfg, t, uid, m)
  {
    BeginRevisionLedger(t, uid, m);
    BeginRevisionRecords(t, uid, m);
    BeginRevisionEvolves(t, m);
    ActiveIsLast(t);
  }

  lemma RewrittenStep(cfg: Config, t: Task, uid: nat, m: Mutation)
    requires RecordsOk(t, uid) && Permitted(cfg, t, uid, m) && Rewrites(m)
    ensures var i := IndexOf(Records(t), m.id);
            i < |Records(t)| && RecordStep(t, Records(t)[i], Rewritten(Records(t)[i], m))
  {}

  lemma RewritePuts(t: Task, m: Mutation)
    requires Rewrites(m) && IndexOf(Records(t), m.id) < |Records(t)|
    ensures Mutate(t, m) == Put(t, Rewritten(Records(t)[IndexOf(Records(t), m.id)], m)) && Drawn(m) == 0
  {}

  /** Transactions that rewrite one record in place. */
  lemma RewriteSound(cfg: Config, t: Task, uid: nat, m: Mutation)
    requires Sound(cfg, t, uid) && Rewrites(m)
    requires IndexOf(Records(t), m.id) < |Records(t)|
    requires RecordStep(t, Records(t)[IndexOf(Records(t), m.id)],
                        Rewritten(Records(t)[IndexOf(Records(t), m.id)], m))
    ensures Kept(cfg, t, uid, m)
  {
    var i := IndexOf(Records(t), m.id);
    var rec := Rewritten(Records(t)[i], m);
    RewritePuts(t, m);
    PutSound(cfg, t, uid, i, rec);
  }

  /** A change of status, flags and references alone leaves ledger and records as they are. */
  lemma HeaderShape(t: Task, t': Task, uid: nat)
    requires Ledger(t) && RecordsOk(t, uid)
    requires t'.id == t.id && t'.revisions == t.revisions && t'.attempts == t.attempts
    requires t'.activeRevisionId == t.activeRevisionId && t'.binding == t.binding
    ensures Ledger(t') && RecordsOk(t', uid) && Records(t') == Records(t)
    ensures RevisionsEvolve(t.revisions, t'.revisions) && RecordsEvolve(Records(t), Records(t'))
  {
    assert Records(t') == Records(t);
    assert forall i :: 0 <= i < |Records(t)| ==> BoundRecord(t, Records(t)[i]);
  }

  lemma CancelSound(cfg: Config, t: Task, uid: nat, m: Mutation)
    requires Sound(cfg, t, uid) && m.MCancel? && Permitted(cfg, t, uid, m)
    ensures Kept(cfg, t, uid, m)
  {
    var t' := t.(cancellationRequested := true,
                 status := if m.pending || HasOwned(t) then Cancelling else CancelStatus(t));
    HeaderShape(t, t', uid);
    assert Sound(cfg, t', uid);
    assert Evolves(t, t');
    SetResponsesSound(cfg, t', uid, m.responses, m.at);
    EvolvesTransitive(t, t', Mutate(t, m));
  }

  /** The facts that tell whether a remote execution is known and how it ended. */
  predicate SameRemote(a: Exec, b: Exec)
  {
    b.status == a.status && b.invocationId == a.invocationId && b.tool.semantics == a.tool.semantics
  }

  /** A cancellation request changes no fact of any execution. */
  lemma CancelSame(cfg: Config, t: Task, uid: nat, m: Mutation)
    requires Sound(cfg, t, uid) && Permitted(cfg, t, uid, m) && m.MCancel?
    ensures var t' := Mutate(t, m);
            |Records(t')| == |Records(t)|
            && forall j :: 0 <= j < |Records(t)| ==> SameRemote(Records(t)[j], Records(t')[j])
  {
    var t' := t.(cancellationRequested := true,
                 status := if m.pending || HasOwned(t) then Cancelling else CancelStatus(t));
    HeaderShape(t, t', uid);
    assert Sound(cfg, t', uid);
    SetResponsesSound(cfg, t', uid, m.responses, m.at);
    var t'' := SetResponses(t', m.responses, m.at);
    assert Mutate(t, m) == t'' && Records(t') == Records(t);
    assert RecordsEvolve(Records(t'), Records(t'')) && OnlyResponses(Records(t'), Records(t''));
    hide Sound, SetResponses, Mutate, HasOwned, CancelStatus;
    assert forall j :: 0 <= j < |Records(t)| ==> SameRecord(Records(t)[j], Records(t'')[j]);
  }

  lemma EvidenceSound(cfg: Config, t: Task, uid: nat, m: Mutation)
    requires Sound(cfg, t, uid) && (m.MBefore? || m.MAfter?)
    ensures Kept(cfg, t, uid, m)
  {
    HeaderShape(t, Mutate(t, m), uid);
  }

  lemma StatusSound(cfg: Config, t: Task, uid: nat, m: Mutation)
    requires Sound(cfg, t, uid) && Permitted(cfg, t, uid, m) && (m.MSetStatus? || m.MFailReplan?)
    ensures Kept(cfg, t, uid, m)
  {
    HeaderShape(t, Mutate(t, m), uid);
  }

  /** Every permitted transaction keeps the invariant and respects history. */
  lemma MutateSound(cfg: Config, t: Task, uid: nat, m: Mutation)
    requires Sound(cfg, t, uid) && Permitted(cfg, t, uid, m)
    ensures Kept(cfg, t, uid, m)
  {
    if Rewrites(m) {
      RewrittenStep(cfg, t, uid, m);
      RewriteSound(cfg, t, uid, m);
      return;
    }
    match m
    case MAppend(rec) => AppendSound(cfg, t, uid, rec);
    case MCancel(_, _, _) => CancelSound(cfg, t, uid, m);
    case MVerified(_, _, _, _) => VerifiedSound(cfg, t, uid, m);
    case MVerificationError(_, _) => VerificationErrorSound(cfg, t, uid, m);
    case MBeginRevision(_, _) => BeginRevisionSound(cfg, t, uid, m);
    case MBefore(_) => EvidenceSound(cfg, t, uid, m);
    case MAfter(_, _) => EvidenceSound(cfg, t, uid, m);
    case MSetStatus(_) => StatusSound(cfg, t, uid, m);
    case MFailReplan => StatusSound(cfg, t, uid, m);
  }
}
