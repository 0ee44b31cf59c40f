/** What a recovery that runs to its end makes of every execution: it takes over what the Gateway reports,
    and nothing else. */
module Reconciled {
  import opened Common
  import opened AgentTask
  import opened Protocol
  import opened Facts
  import opened TaskInvariants
  import opened WorldInvariants
  import opened Runs
  import opened Retries
  import opened Ownership
  import opened LostCalls

  /** The one row is the same but for its records, and every other row is the same altogether. */
  ghost predicate OnlyRecords(w: World, w': World, i: nat)
  {
    && |w'.tasks| == |w.tasks| && i < |w.tasks| && w'.posts == w.posts && w'.nextUid == w.nextUid
    && w'.tasks[i] == w.tasks[i].(revisions := w'.tasks[i].revisions)
    && forall j :: 0 <= j < |w.tasks| && j != i ==> w'.tasks[j] == w.tasks[j]
  }

  /** Effects that touch no row may be left out of account. */
  lemma AmongQuiet(cfg: Config, w: World, s: seq<Effect>, k: nat)
    requires k < |s| && s[k].Update? && Rewrites(s[k].m) && forall j :: 0 <= j < |s| && j != k ==> Quiet(s[j])
    ensures var w', i := Finish(w, s), Find(w.tasks, s[k].taskId);
            && w'.posts == w.posts && w'.nextUid == w.nextUid
            && w'.tasks == if i == |w.tasks| then w.tasks else w.tasks[i := Mutate(w.tasks[i], s[k].m)]
  {
    var before, after := s[..k], s[k + 1..];
    hide Mutate, Cut, Find, Legal;
    assert s == before + ([s[k]] + after);
    QuietLegal(cfg, w, before);
    var w1 := Finish(w, before);
    FinishConcat(w, before, [s[k]] + after);
    FinishConcat(w1, [s[k]], after);
    FinishOne(w1, s[k]);
    QuietLegal(cfg, Apply(w1, s[k]), after);
  }

  lemma RewrittenRow(t: Task, m: Mutation)
    requires Rewrites(m)
    ensures Mutate(t, m) == t.(revisions := Mutate(t, m).revisions)
  {
    hide Rewritten, PutIn, Records;
  }

  /** Among effects that touch no row, one rewritten record. */
  lemma OneRewrite(cfg: Config, w: World, s: seq<Effect>, k: nat)
    requires Inv(cfg, w) && k < |s| && s[k].Update? && Rewrites(s[k].m) && EffectOk(cfg, w, s[k])
    requires forall j :: 0 <= j < |s| && j != k ==> Quiet(s[j])
    ensures var i := Find(w.tasks, s[k].taskId);
            var n := IndexOf(Records(w.tasks[i]), s[k].m.id);
            var w' := Finish(w, s);
            && OnlyRecords(w, w', i) && n < |Records(w.tasks[i])|
            && Records(w'.tasks[i]) == Records(w.tasks[i])[n := Rewritten(Records(w.tasks[i])[n], s[k].m)]
  {
    var i := Find(w.tasks, s[k].taskId);
    assert Sound(cfg, w.tasks[i], w.nextUid);
    RewriteRecords(cfg, w.tasks[i], w.nextUid, s[k].m);
    RewrittenRow(w.tasks[i], s[k].m);
    hide Inv, Sound, Permitted, Records, IndexOf, Rewritten, Mutate, Cut, Find, Rewrites;
    AmongQuiet(cfg, w, s, k);
  }

  /** What recovery heard about the k-th record; where it heard nothing the request counts as failed. */
  function Heard(found: seq<Recovered>, k: nat): Recovered
  {
    if k < |found| then found[k] else StatusFailed
  }

  /** What becomes of one record. Queries and ended records stay. An open record without identity was
      perhaps never sent, one whose status request failed cannot be judged: both become unknown. Any
      other takes over the answer, with the status it reports. */
  ghost predicate RecoveredAs(r: Exec, r': Exec, heard: Recovered, at: int)
  {
    if r.tool.semantics == Query || !IsOpen(r.status) then r' == r
    else if r.invocationId.None? || !heard.StatusAnswered? then
      r' == r.(status := Unknown, response := None, updatedAt := at)
    else
      r' == r.(status := Reported(heard.response).GetOr(r.status), response := Some(heard.response), updatedAt := at)
  }

  /** No two Actions and no two Sessions share an identity. */
  ghost predicate Apart(records: seq<Exec>)
  {
    forall a, b :: 0 <= a < b < |records| && Remote(records[a]) && records[a].tool.semantics == records[b].tool.semantics ==>
      records[a].invocationId != records[b].invocationId
  }

  lemma ApartKept(records: seq<Exec>, k: nat, r: Exec)
    requires Apart(records) && k < |records|
    requires r.invocationId == records[k].invocationId && r.tool == records[k].tool
    ensures Apart(records[k := r])
  {}

  /** One repaired record in a row, all others as they were. */
  ghost predicate OneRepaired(w: World, w': World, i: nat, base: nat, heard: Recovered, at: int)
  {
    && OnlyRecords(w, w', i) && base < |Records(w.tasks[i])| && |Records(w'.tasks[i])| == |Records(w.tasks[i])|
    && RecoveredAs(Records(w.tasks[i])[base], Records(w'.tasks[i])[base], heard, at)
    && Records(w'.tasks[i]) == Records(w.tasks[i])[base := Records(w'.tasks[i])[base]]
  }

  /** A script of one rewriting of the record at `base`, that makes of it what is due. */
  lemma RepairedBy(cfg: Config, w: World, i: nat, base: nat, s: seq<Effect>, k: nat, heard: Recovered, at: int)
    requires Inv(cfg, w) && k < |s| && s[k].Update? && Rewrites(s[k].m) && EffectOk(cfg, w, s[k])
    requires forall j :: 0 <= j < |s| && j != k ==> Quiet(s[j])
    requires i == Find(w.tasks, s[k].taskId) < |w.tasks| && base == IndexOf(Records(w.tasks[i]), s[k].m.id)
    requires base < |Records(w.tasks[i])|
    requires RecoveredAs(Records(w.tasks[i])[base], Rewritten(Records(w.tasks[i])[base], s[k].m), heard, at)
    ensures OneRepaired(w, Finish(w, s), i, base, heard, at)
  {
    hide *;
    OneRewrite(cfg, w, s, k);
    assert OneRepaired(w, Finish(w, s), i, base, heard, at) by {
      RepairedWhole(w, Finish(w, s), i, base, Rewritten(Records(w.tasks[i])[base], s[k].m), heard, at);
    }
  }

  lemma RepairedWhole(w: World, w': World, i: nat, base: nat, r: Exec, heard: Recovered, at: int)
    requires OnlyRecords(w, w', i) && base < |Records(w.tasks[i])|
    requires Records(w'.tasks[i]) == Records(w.tasks[i])[base := r] && RecoveredAs(Records(w.tasks[i])[base], r, heard, at)
    ensures OneRepaired(w, w', i, base, heard, at)
  {
    hide Records, RecoveredAs;
  }

  lemma GivenUpAs(r: Exec, m: Mutation, heard: Recovered, at: int)
    requires IsOpen(r.status) && !r.tool.semantics.Query? && (r.invocationId.None? || !heard.StatusAnswered?)
    requires m == MFinish(r.id, Unknown, r.invocationId, r.attemptId, None, at)
             || (r.invocationId.None? && m == MFinish(r.id, Unknown, None, None, None, at))
    ensures RecoveredAs(r, Rewritten(r, m), heard, at)
  {}

  lemma GivenUpRepaired(cfg: Config, w: World, taskId: nat, base: nat, records: seq<Exec>, s: seq<Effect>, k: nat,
                        heard: Recovered, at: int)
    requires Inv(cfg, w) && Recovering(w, taskId, base, records) && records != [] && k < |s|
    requires forall j :: 0 <= j < |s| && j != k ==> Quiet(s[j])
    requires s[k] == Update(taskId, MFinish(records[0].id, Unknown, records[0].invocationId, records[0].attemptId, None, at))
             || (records[0].invocationId.None? && s[k] == Update(taskId, MFinish(records[0].id, Unknown, None, None, None, at)))
    requires IsOpen(records[0].status) && !records[0].tool.semantics.Query?
    requires records[0].invocationId.None? || !heard.StatusAnswered?
    ensures OneRepaired(w, Finish(w, s), Find(w.tasks, taskId), base, heard, at)
  {
    hide Inv, Recovering, Records, EffectOk, RecoveredAs, Cut, OneRepaired;
    RecordFacts(records[0]);
    CurrentRecord(cfg, w, taskId, base, records);
    RecoverUnknown(cfg, w, taskId, base, records, s[k].m);
    assert EffectOk(cfg, w, s[k]) by { assert Legal(cfg, w, [Update(taskId, s[k].m)]); }
    GivenUpAs(records[0], s[k].m, heard, at);
    hide Legal;
    RowIsThere(w, taskId, base, records);
    RepairedBy(cfg, w, Find(w.tasks, taskId), base, s, k, heard, at);
  }

  lemma RowIsThere(w: World, taskId: nat, base: nat, records: seq<Exec>)
    requires Recovering(w, taskId, base, records)
    ensures Find(w.tasks, taskId) < |w.tasks|
  {}

  /** The observation of the current record, when identities are apart. */
  lemma ObservedUpdate(cfg: Config, w: World, taskId: nat, base: nat, records: seq<Exec>, response: Dict, dropped: bool,
                       at: int)
    requires Inv(cfg, w) && Recovering(w, taskId, base, records) && records != [] && Retracked(records[0])
    requires Apart(Records(w.tasks[Find(w.tasks, taskId)]))
    ensures var r := records[0];
            var s := ObserveScript(cfg, w, taskId, r.invocationId.value, r.tool.semantics, response, dropped, at);
            && s != [] && s[0] == Update(taskId, MObserve(r.id, StatusOf(response, r.status), response, at))
            && EffectOk(cfg, w, s[0]) && AllQuiet(s[1..])
  {
    var r := records[0];
    var t := w.tasks[Find(w.tasks, taskId)];
    CurrentRecord(cfg, w, taskId, base, records);
    ObserveShape(cfg, w, taskId, base, records, response, dropped, at);
    ObserveStep(cfg, w, taskId, r.invocationId.value, r.tool.semantics, response, dropped, at);
    hide Inv, Recovering, EffectOk, StatusOf, ObserveScript, AllQuiet, Mutate;
    assert OwnedIndex(Records(t), r.invocationId.value, r.tool.semantics) == base;
  }

  lemma ObservedAs(r: Exec, response: Dict, dropped: bool, at: int)
    requires Retracked(r)
    ensures RecoveredAs(r, Rewritten(r, MObserve(r.id, StatusOf(response, r.status), response, at)),
                        StatusAnswered(response, dropped), at)
  {
    StatusIsReported(response, r.status);
    RecordFacts(r);
    hide StatusOf, Reported;
  }

  lemma ObservedRepaired(cfg: Config, w: World, taskId: nat, base: nat, records: seq<Exec>, s: seq<Effect>, k: nat,
                         response: Dict, dropped: bool, at: int)
    requires Inv(cfg, w) && Recovering(w, taskId, base, records) && records != [] && k <= |s|
    requires Apart(Records(w.tasks[Find(w.tasks, taskId)]))
    requires forall j :: 0 <= j < k ==> Quiet(s[j])
    requires Retracked(records[0])
    requires s[k..] == ObserveScript(cfg, w, taskId, records[0].invocationId.value, records[0].tool.semantics,
                                     response, dropped, at)
    ensures OneRepaired(w, Finish(w, s), Find(w.tasks, taskId), base, StatusAnswered(response, dropped), at)
  {
    RowIsThere(w, taskId, base, records);
    hide Inv, Recovering, Records, EffectOk, StatusOf, ObserveScript, Apart, RecoveredAs, OneRepaired, Cut, Retracked;
    CurrentRecord(cfg, w, taskId, base, records);
    ObservedUpdate(cfg, w, taskId, base, records, response, dropped, at);
    ObservedAs(records[0], response, dropped, at);
    assert s[k] == s[k..][0];
    forall j | k < j < |s| ensures Quiet(s[j]) { assert s[j] == s[k..][1..][j - k - 1]; }
    RepairedBy(cfg, w, Find(w.tasks, taskId), base, s, k, StatusAnswered(response, dropped), at);
  }

  lemma OpenRecovered(cfg: Config, w: World, taskId: nat, base: nat, records: seq<Exec>, heard: Recovered, at: int)
    requires Inv(cfg, w) && Recovering(w, taskId, base, records) && records != [] && Retracked(records[0])
    requires Apart(Records(w.tasks[Find(w.tasks, taskId)])) && (cfg.tracked ==> Obliging(heard))
    ensures OneRepaired(w, Finish(w, RecoverOne(cfg, w, taskId, records[0], heard, at)), Find(w.tasks, taskId), base,
                        heard, at)
  {
    var r := records[0];
    var s := RecoverOne(cfg, w, taskId, r, heard, at);
    RecordFacts(r);
    hide Inv, Recovering, ObserveScript, Records, Apart, OneRepaired, Cut, ToolTerminal, IsOpen;
    var k := if cfg.tracked then 1 else 0;
    if heard.StatusAnswered? {
      assert s[k..] == ObserveScript(cfg, w, taskId, r.invocationId.value, r.tool.semantics, heard.response,
                                     heard.dropped, at);
      ObservedRepaired(cfg, w, taskId, base, records, s, k, heard.response, heard.dropped, at);
    } else {
      GivenUpRepaired(cfg, w, taskId, base, records, s, k, heard, at);
    }
  }

  lemma OneRecovered(cfg: Config, w: World, taskId: nat, base: nat, records: seq<Exec>, heard: Recovered, at: int)
    requires Inv(cfg, w) && Recovering(w, taskId, base, records) && records != []
    requires Apart(Records(w.tasks[Find(w.tasks, taskId)])) && (cfg.tracked ==> Obliging(heard))
    ensures OneRepaired(w, Finish(w, RecoverOne(cfg, w, taskId, records[0], heard, at)), Find(w.tasks, taskId), base,
                        heard, at)
  {
    var r := records[0];
    RecordFacts(r);
    if Retracked(r) {
      hide *;
      OpenRecovered(cfg, w, taskId, base, records, heard, at);
    } else {
      var s := RecoverOne(cfg, w, taskId, r, heard, at);
      if s == [] {
        CurrentRecord(cfg, w, taskId, base, records);
        hide Inv, Apart, Records;
        assert Finish(w, s) == w;
      } else {
        hide Inv, Recovering, Apart, Records, OneRepaired, Cut;
        GivenUpRepaired(cfg, w, taskId, base, records, s, 0, heard, at);
      }
    }
  }

  lemma NoAbort(cfg: Config, w: World, taskId: nat, r: Exec, heard: Recovered)
    requires cfg.tracked ==> Obliging(heard)
    ensures !RecoveryAborts(cfg, w, taskId, r, heard)
  {}

  /** From position `base` on every record has become what is due; the others are as they were. */
  ghost predicate AllRepaired(w: World, w': World, i: nat, base: nat, records: seq<Exec>, found: seq<Recovered>, at: int)
  {
    && OnlyRecords(w, w', i) && |Records(w'.tasks[i])| == |Records(w.tasks[i])| == base + |records|
    && (forall k :: 0 <= k < base ==> Records(w'.tasks[i])[k] == Records(w.tasks[i])[k])
    && forall k :: 0 <= k < |records| ==>
         RecoveredAs(records[k], Records(w'.tasks[i])[base + k], Heard(found, k), at)
  }

  lemma RepairedNext(w: World, w1: World, w': World, i: nat, base: nat, records: seq<Exec>, found: seq<Recovered>, at: int)
    requires records != [] && OnlyRecords(w, w1, i) && AllRepaired(w1, w', i, base + 1, records[1..], Rest(found), at)
    requires |Records(w1.tasks[i])| == |Records(w.tasks[i])| && base < |Records(w.tasks[i])|
    requires Records(w.tasks[i])[base] == records[0]
    requires RecoveredAs(Records(w.tasks[i])[base], Records(w1.tasks[i])[base], Heard(found, 0), at)
    requires forall k :: 0 <= k < |Records(w.tasks[i])| && k != base ==> Records(w1.tasks[i])[k] == Records(w.tasks[i])[k]
    ensures AllRepaired(w, w', i, base, records, found, at)
  {
    assert forall k :: 0 < k < |records| ==> Heard(found, k) == Heard(Rest(found), k - 1) && records[k] == records[1..][k - 1];
    hide Records, RecoveredAs, Heard;
    var before, after := Records(w1.tasks[i]), Records(w'.tasks[i]);
    assert after[base] == before[base];
    forall k | 0 <= k < |records| ensures RecoveredAs(records[k], after[base + k], Heard(found, k), at) {
      if k > 0 { assert after[base + k] == after[base + 1 + (k - 1)]; }
    }
  }

  lemma {:induction false} AllRecovered(cfg: Config, w: World, taskId: nat, base: nat, records: seq<Exec>,
                                        found: seq<Recovered>, at: int)
    requires Inv(cfg, w) && Recovering(w, taskId, base, records) && Apart(Records(w.tasks[Find(w.tasks, taskId)]))
    requires cfg.tracked ==> forall k :: 0 <= k < |found| ==> Obliging(found[k])
    ensures AllRepaired(w, Finish(w, RecoverFrom(cfg, w, taskId, records, found, at)), Find(w.tasks, taskId), base, records,
                        found, at)
    decreases |records|
  {
    var i := Find(w.tasks, taskId);
    CurrentBase(w, taskId, base, records);
    if records == [] {
      hide Inv, Recovering;
      NothingRepaired(w, i, base, found, at);
    } else {
      var heard := Answer(found);
      hide *;
      RecoverFromParts(cfg, w, taskId, records, found, at);
      var head := RecoverOne(cfg, w, taskId, records[0], heard, at);
      var w1 := Finish(w, head);
      var rest := RecoverFrom(cfg, w1, taskId, records[1..], Rest(found), at);
      OneRecovered(cfg, w, taskId, base, records, heard, at);
      RecoverOneLegal(cfg, w, taskId, base, records, heard, at);
      RepairedParts(w, w1, taskId, i, base, heard, at);
      AllRecovered(cfg, w1, taskId, base + 1, records[1..], Rest(found), at);
      FinishConcat(w, head, rest);
      RepairedNext(w, w1, Finish(w1, rest), i, base, records, found, at);
    }
  }

  lemma NothingRepaired(w: World, i: nat, base: nat, found: seq<Recovered>, at: int)
    requires i < |w.tasks| && |Records(w.tasks[i])| == base
    ensures AllRepaired(w, Finish(w, []), i, base, [], found, at)
  {
    hide Records;
    assert Finish(w, []) == w;
  }

  lemma RecoverFromParts(cfg: Config, w: World, taskId: nat, records: seq<Exec>, found: seq<Recovered>, at: int)
    requires records != [] && (cfg.tracked ==> forall k :: 0 <= k < |found| ==> Obliging(found[k]))
    ensures var head := RecoverOne(cfg, w, taskId, records[0], Answer(found), at);
            RecoverFrom(cfg, w, taskId, records, found, at)
            == head + RecoverFrom(cfg, Finish(w, head), taskId, records[1..], Rest(found), at)
    ensures Answer(found) == Heard(found, 0) && (cfg.tracked ==> Obliging(Answer(found)))
    ensures cfg.tracked ==> forall k :: 0 <= k < |Rest(found)| ==> Obliging(Rest(found)[k])
  {
    NoAbort(cfg, w, taskId, records[0], Answer(found));
    hide RecoverOne, RecoveryAborts, Obliging;
  }

  lemma CurrentBase(w: World, taskId: nat, base: nat, records: seq<Exec>)
    requires Recovering(w, taskId, base, records)
    ensures Find(w.tasks, taskId) < |w.tasks| && |Records(w.tasks[Find(w.tasks, taskId)])| == base + |records|
    ensures records != [] ==> Records(w.tasks[Find(w.tasks, taskId)])[base] == records[0]
  {}

  lemma RepairedParts(w: World, w1: World, taskId: nat, i: nat, base: nat, heard: Recovered, at: int)
    requires OneRepaired(w, w1, i, base, heard, at) && Apart(Records(w.tasks[i])) && Find(w.tasks, taskId) == i
    ensures OnlyRecords(w, w1, i) && Find(w1.tasks, taskId) == i && Apart(Records(w1.tasks[i]))
    ensures |Records(w1.tasks[i])| == |Records(w.tasks[i])| && base < |Records(w.tasks[i])|
    ensures RecoveredAs(Records(w.tasks[i])[base], Records(w1.tasks[i])[base], heard, at)
    ensures forall k :: 0 <= k < |Records(w.tasks[i])| && k != base ==> Records(w1.tasks[i])[k] == Records(w.tasks[i])[k]
  {
    hide Records;
    SameIndex(w, w1, taskId, i);
    ApartKept(Records(w.tasks[i]), base, Records(w1.tasks[i])[base]);
  }

  lemma SameIndex(w: World, w1: World, taskId: nat, i: nat)
    requires i == Find(w.tasks, taskId) && OnlyRecords(w, w1, i)
    ensures Find(w1.tasks, taskId) == i
  {
    assert w1.tasks[i].id == taskId;
    assert forall k :: 0 <= k < i ==> w1.tasks[k].id != taskId;
  }

  // ---- A whole recovery ------------------------------------------------------------------------

  /** A recovery whose tracker writes succeed: every record of the open task becomes what the Gateway was
      heard to say of it, its row keeps everything else, and every other row and the log of requests are
      as they were. Where no task is open, nothing happens. */
  lemma RecoveredExactly(cfg: Config, w: World, c: Call)
    requires Inv(cfg, w) && c.Reconcile?
    requires cfg.tracked ==> c.bindingTracked && forall k :: 0 <= k < |c.found| ==> Obliging(c.found[k])
    requires forall i :: 0 <= i < |w.tasks| && !IsClosed(w.tasks[i]) ==> Apart(Records(w.tasks[i]))
    ensures var w' := StepWorld(cfg, w, Done(c));
            && |w'.tasks| == |w.tasks| && w'.posts == w.posts
            && forall i :: 0 <= i < |w.tasks| ==>
                 if IsClosed(w.tasks[i]) then w'.tasks[i] == w.tasks[i]
                 else && w'.tasks[i] == w.tasks[i].(revisions := w'.tasks[i].revisions)
                      && |Records(w'.tasks[i])| == |Records(w.tasks[i])|
                      && forall k :: 0 <= k < |Records(w.tasks[i])| ==>
                           RecoveredAs(Records(w.tasks[i])[k], Records(w'.tasks[i])[k], Heard(c.found, k), c.at)
  {
    var i := ActiveTask(w.tasks);
    forall j | 0 <= j < |w.tasks| ensures IsClosed(w.tasks[j]) <==> Terminal(w.tasks[j]) { TaskFacts(w.tasks[j]); }
    OnlyActive(cfg, w);
    var s := Script(cfg, w, c);
    if i == |w.tasks| {
      assert s == [];
      assert Finish(w, s) == w;
    } else {
      var t := w.tasks[i];
      Held(cfg, w, c);
      hide Inv, RecoverFrom, Records, Script, Cut, Apart, AllRepaired, Recovering, IsClosed, Terminal;
      var hold := Hold(cfg, t);
      var w1 := Finish(w, hold);
      AllRecovered(cfg, w1, t.id, 0, Records(t), c.found, c.at);
      FinishConcat(w, hold, RecoverFrom(cfg, w1, t.id, Records(t), c.found, c.at));
      RepairedFromStart(w, w1, Finish(w, s), i, Records(t), c.found, c.at);
    }
  }

  lemma RepairedFromStart(w: World, w1: World, w': World, i: nat, records: seq<Exec>, found: seq<Recovered>, at: int)
    requires w1.tasks == w.tasks && w1.posts == w.posts && i < |w.tasks| && records == Records(w.tasks[i])
    requires AllRepaired(w1, w', i, 0, records, found, at)
    ensures |w'.tasks| == |w.tasks| && w'.posts == w.posts
    ensures forall j :: 0 <= j < |w.tasks| && j != i ==> w'.tasks[j] == w.tasks[j]
    ensures w'.tasks[i] == w.tasks[i].(revisions := w'.tasks[i].revisions) && |Records(w'.tasks[i])| == |records|
    ensures forall k :: 0 <= k < |records| ==> RecoveredAs(records[k], Records(w'.tasks[i])[k], Heard(found, k), at)
  {
    hide Records, RecoveredAs;
    forall k | 0 <= k < |records| ensures RecoveredAs(records[k], Records(w'.tasks[i])[k], Heard(found, k), at) {
      assert Records(w'.tasks[i])[0 + k] == Records(w'.tasks[i])[k];
    }
  }

  lemma OnlyActive(cfg: Config, w: World)
    requires Inv(cfg, w)
    ensures forall j :: 0 <= j < |w.tasks| ==> (Terminal(w.tasks[j]) <==> j != ActiveTask(w.tasks))
  {
    hide Sound, PostsOk;
  }

  // ---- The binding -----------------------------------------------------------------------------

  lemma {:induction false} RecordsKeepBindings(cfg: Config, w: World, taskId: nat, records: seq<Exec>,
                                               found: seq<Recovered>, at: int)
    ensures forall k :: 0 <= k < |RecoverFrom(cfg, w, taskId, records, found, at)| ==>
              BindingFree(RecoverFrom(cfg, w, taskId, records, found, at)[k])
    decreases |records|
  {
    if records != [] {
      var head := RecoverOne(cfg, w, taskId, records[0], Answer(found), at);
      RecordKeepsBindings(cfg, w, taskId, records[0], Answer(found), at);
      hide RecoverOne, BindingFree, RecoveryAborts, Cut;
      RecordsKeepBindings(cfg, Finish(w, head), taskId, records[1..], Rest(found), at);
    }
  }

  lemma RecordKeepsBindings(cfg: Config, w: World, taskId: nat, r: Exec, heard: Recovered, at: int)
    ensures forall k :: 0 <= k < |RecoverOne(cfg, w, taskId, r, heard, at)| ==>
              BindingFree(RecoverOne(cfg, w, taskId, r, heard, at)[k])
  {
    hide StatusOf, Records, ToolTerminal, Terminal;
  }

  /** Recovery, however it goes on, first holds the binding of the open task again; where that fails, it
      does nothing. No other binding is touched. */
  lemma BindingHeldAgain(cfg: Config, w: World, c: Call, i: nat)
    requires Inv(cfg, w) && c.Reconcile? && i < |w.tasks| && !IsClosed(w.tasks[i])
    ensures var t, w' := w.tasks[i], StepWorld(cfg, w, Done(c));
            if t.binding.None? || !cfg.tracked then w'.bindings == w.bindings
            else if c.bindingTracked then w'.bindings == w.bindings + {t.binding.value.id}
            else w' == w
  {
    var t := w.tasks[i];
    hide *;
    TaskFacts(t);
    OnlyActive(cfg, w);
    RecoverySteps(cfg, w, c);
    HoldTakes(cfg, w, t);
    var hold := Hold(cfg, t);
    if t.binding.Some? && cfg.tracked && !c.bindingTracked {
      FinishNothing(w);
    } else {
      var rest := RecoverFrom(cfg, Finish(w, hold), t.id, Records(t), c.found, c.at);
      FinishConcat(w, hold, rest);
      RecordsKeepBindings(cfg, Finish(w, hold), t.id, Records(t), c.found, c.at);
      BindingFreeFinish(Finish(w, hold), rest);
    }
  }

  /** Over whole runs, with deaths and abandoned calls anywhere, against a Gateway that gives out new
      identities: what each recovery makes of each record. */
  lemma RecoveryTakesOver(cfg: Config, steps: seq<Step>, c: Call, i: nat, k: nat)
    requires cfg.tracked && Honest(cfg, EMPTY, steps) && c.Reconcile? && Benign(Reached(cfg, steps), c)
    requires i < |Reached(cfg, steps).tasks| && k < |Records(Reached(cfg, steps).tasks[i])|
    ensures var w, w' := Reached(cfg, steps), StepWorld(cfg, Reached(cfg, steps), Done(c));
            && i < |w'.tasks| && |Records(w'.tasks[i])| == |Records(w.tasks[i])|
            && w'.tasks[i].status == w.tasks[i].status
            && var r, r' := Records(w.tasks[i])[k], Records(w'.tasks[i])[k];
               if IsClosed(w.tasks[i]) then r' == r else RecoveredAs(r, r', Heard(c.found, k), c.at)
  {
    var w := Reached(cfg, steps);
    EmptyInv(cfg);
    NothingOwned();
    var some := LossesOwn(cfg, EMPTY, steps, {});
    ReachedInv(cfg, steps);
    OwnsParts(w, some);
    hide Reached, Inv, RecoveredAs, StepWorld;
    ObligingAll(w, c);
    forall j | 0 <= j < |w.tasks| ensures Apart(Records(w.tasks[j])) { OwnApart(w, j); }
    hide Apart, OwnIds;
    RecoveredExactly(cfg, w, c);
  }

  lemma OwnApart(w: World, i: nat)
    requires OwnIds(w) && i < |w.tasks|
    ensures Apart(Records(w.tasks[i]))
  {
    var records := Records(w.tasks[i]);
    forall a: nat, b: nat | a < b < |records| && Remote(records[a]) && Remote(records[b])
      ensures records[a].invocationId != records[b].invocationId
    {
      assert RemoteAt(w, i, a) && RemoteAt(w, i, b) && RemoteId(w, i, a) != RemoteId(w, i, b);
    }
  }
}
