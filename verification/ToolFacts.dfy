/** What an observation may do to an execution record: the Gateway's word decides, until the task
    itself has ended. */
module ToolFacts {
  import opened Common
  import opened AgentTask
  import opened Protocol
  import opened TaskInvariants
  import opened WorldInvariants
  import opened Runs
  import opened Retries
  import opened RetryLimits

  /** This JSON value is a word the agent reads as the status. */
  predicate Word(j: Json, s: ToolStatus)
  {
    j.JStr? && Phase(Lower(j.s)) == Some(s)
  }

  /** Some status-bearing field of the reply says `s`. */
  predicate Names(data: Dict, s: ToolStatus)
  {
    || ("phase" in data && Word(data["phase"], s))
    || ("state" in data && Word(data["state"], s))
    || ("result" in data && data["result"].JObj? && "status" in data["result"].fields
        && Word(data["result"].fields["status"], s))
  }

  /** No status is made up: it is the one recorded before, or one that the reply names. */
  lemma NothingInvented(response: Dict, before: ToolStatus)
    ensures StatusOf(response, before) == before || Names(ResponseData(response), StatusOf(response, before))
  {
    hide Phase, Lower;
  }

  /** An observation rewrites the first record with that identity exactly while the task is open,
      whatever that record said before, and no other record at all. */
  lemma ObservedExactly(cfg: Config, w: World, i: nat, invocationId: string, response: Dict, dropped: bool, at: int)
    requires Inv(cfg, w) && i < |w.tasks|
    requires OwnedIndex(Records(w.tasks[i]), invocationId, Action) < |Records(w.tasks[i])|
    ensures var t := w.tasks[i];
            var k := OwnedIndex(Records(t), invocationId, Action);
            var w' := StepWorld(cfg, w, Done(ObserveAction(t.id, invocationId, response, dropped, at)));
            && |w'.tasks| == |w.tasks| && w'.tasks[i].id == t.id && w'.tasks[i].status == t.status
            && k < |Records(t)|
            && Records(w'.tasks[i]) ==
               if Terminal(t) then Records(t)
               else Records(t)[k := Records(t)[k].(status := StatusOf(response, Records(t)[k].status),
                                                   response := Some(response), updatedAt := at)]
  {
    var t := w.tasks[i];
    ObservesNothing(cfg, w, i, invocationId, response, dropped, at);
    hide *;
    if !Terminal(t) { ObservedOpen(cfg, w, i, invocationId, response, dropped, at); }
  }

  lemma ObservesNothing(cfg: Config, w: World, i: nat, invocationId: string, response: Dict, dropped: bool, at: int)
    requires Inv(cfg, w) && i < |w.tasks|
    ensures var t := w.tasks[i];
            var w' := StepWorld(cfg, w, Done(ObserveAction(t.id, invocationId, response, dropped, at)));
            && Find(w.tasks, t.id) == i
            && w' == Finish(w, ObserveScript(cfg, w, t.id, invocationId, Action, response, dropped, at))
            && (Terminal(t) ==> w' == w)
  {
    FindAt(w.tasks, i);
    hide Inv, StatusOf, Records, Terminal, OwnedIndex, Apply;
  }

  lemma ObservedOpen(cfg: Config, w: World, i: nat, invocationId: string, response: Dict, dropped: bool, at: int)
    requires Inv(cfg, w) && i < |w.tasks| && Find(w.tasks, w.tasks[i].id) == i && !Terminal(w.tasks[i])
    requires OwnedIndex(Records(w.tasks[i]), invocationId, Action) < |Records(w.tasks[i])|
    ensures var t := w.tasks[i];
            var k := OwnedIndex(Records(t), invocationId, Action);
            var w' := Finish(w, ObserveScript(cfg, w, t.id, invocationId, Action, response, dropped, at));
            && |w'.tasks| == |w.tasks| && w'.tasks[i].id == t.id && w'.tasks[i].status == t.status
            && k < |Records(t)|
            && Records(w'.tasks[i]) ==
               Records(t)[k := Records(t)[k].(status := StatusOf(response, Records(t)[k].status),
                                              response := Some(response), updatedAt := at)]
  {
    hide Inv, StatusOf, Records, Mutate, OwnedIndex, Apply, Cut, Terminal, EffectOk;
    var s := ObserveScript(cfg, w, w.tasks[i].id, invocationId, Action, response, dropped, at);
    assert s != [];
    ObserveStep(cfg, w, w.tasks[i].id, invocationId, Action, response, dropped, at);
    hide ObserveScript, IndexOf;
    Committed(cfg, w, i, s);
  }

  /** One rewritten record and a tracker write or none: the row with that record rewritten. */
  lemma Committed(cfg: Config, w: World, i: nat, s: seq<Effect>)
    requires Inv(cfg, w) && s != [] && s[0].Update? && Rewrites(s[0].m) && AllQuiet(s[1..])
    requires Find(w.tasks, s[0].taskId) == i < |w.tasks| && EffectOk(cfg, w, s[0])
    ensures var t := w.tasks[i];
            var k := IndexOf(Records(t), s[0].m.id);
            && |Finish(w, s).tasks| == |w.tasks|
            && Finish(w, s).tasks[i].id == t.id && Finish(w, s).tasks[i].status == t.status && k < |Records(t)|
            && Records(Finish(w, s).tasks[i]) == Records(t)[k := Rewritten(Records(t)[k], s[0].m)]
  {
    assert Sound(cfg, w.tasks[i], w.nextUid);
    hide Inv, Sound, Mutate, Permitted, Records, IndexOf, Rewritten;
    RewriteRecords(cfg, w.tasks[i], w.nextUid, s[0].m);
    QuietLegal(cfg, Apply(w, s[0]), s[1..]);
    assert Finish(w, s) == Finish(Apply(w, s[0]), s[1..]);
  }

  /** Exactly when an Action's recorded status survives an observation: its task has ended, or the
      reply names no other status. That the record itself is terminal does not protect it. */
  lemma SurvivesExactly(cfg: Config, w: World, i: nat, invocationId: string, response: Dict, dropped: bool, at: int)
    requires Inv(cfg, w) && i < |w.tasks|
    requires OwnedIndex(Records(w.tasks[i]), invocationId, Action) < |Records(w.tasks[i])|
    ensures var t := w.tasks[i];
            var k := OwnedIndex(Records(t), invocationId, Action);
            var w' := StepWorld(cfg, w, Done(ObserveAction(t.id, invocationId, response, dropped, at)));
            && i < |w'.tasks| && k < |Records(w'.tasks[i])|
            && (Records(w'.tasks[i])[k].status == Records(t)[k].status
                <==> Terminal(t) || StatusOf(response, Records(t)[k].status) == Records(t)[k].status)
  {
    hide Inv, StepWorld, StatusOf, Records;
    ObservedExactly(cfg, w, i, invocationId, response, dropped, at);
  }

  const REVEALED: Dict := map["invocation_id" := JStr("i")]
  const COMPLETED: Dict := map["phase" := JStr("completed")]
  const NOW_FAILED: Dict := map["phase" := JStr("failed")]

  function Flips(last: bool): seq<Step>
  {
    [Done(CREATED), Done(Lost("move", Some(REVEALED))), Done(ObserveAction(0, "i", COMPLETED, true, 0))]
    + (if last then [Done(ObserveAction(0, "i", NOW_FAILED, true, 0))] else [])
  }

  lemma RevealedWorld()
    ensures var w := StepWorld(PLAIN, StepWorld(PLAIN, EMPTY, Done(CREATED)), Done(Lost("move", Some(REVEALED))));
            && |w.tasks| == 1 && w.tasks[0].id == 0 && !Terminal(w.tasks[0]) && |Records(w.tasks[0])| == 1
            && OwnedIndex(Records(w.tasks[0]), "i", Action) == 0
  {
    var w0 := StepWorld(PLAIN, EMPTY, Done(CREATED));
    CreatedWorld();
    assert Plain(w0, []);
    PlainRecords(w0, []);
    assert Strip("move") == "move";
    hide StepWorld, SameAction, PathSafe;
    assert PathSafe("move") by { assert Strip("move") == "move"; PathSafeMove(); }
    LostSends(w0, "move", [], Some(REVEALED));
    var r := GivenUp(LostRecord(w0, "move"), Some(REVEALED));
    assert [] + [r] == [r];
    PlainRecords(StepWorld(PLAIN, w0, Done(Lost("move", Some(REVEALED)))), [r]);
    assert r.invocationId == Some("i");
  }

  lemma PathSafeMove()
    ensures PathSafe("move")
  {}

  lemma Readings(s: ToolStatus)
    ensures StatusOf(COMPLETED, s) == ToolStatus.Succeeded && StatusOf(NOW_FAILED, s) == ToolStatus.Failed
  {
    assert Lower("completed") == "completed" && Lower("failed") == "failed";
  }

  /** A `succeeded` record, in a run without any failure of the process, becomes `failed` by a later
      observation: a terminal record alone is not final. */
  lemma TerminalRecordRewritten()
    ensures var w := Reached(PLAIN, Flips(false));
            |w.tasks| == 1 && |Records(w.tasks[0])| == 1 && Records(w.tasks[0])[0].status == ToolStatus.Succeeded
    ensures var w := Reached(PLAIN, Flips(true));
            |w.tasks| == 1 && |Records(w.tasks[0])| == 1 && Records(w.tasks[0])[0].status == ToolStatus.Failed
  {
    hide StepWorld, Inv, Grows, Records, StatusOf, Lost, Terminal;
    var c1, c2 := ObserveAction(0, "i", COMPLETED, true, 0), ObserveAction(0, "i", NOW_FAILED, true, 0);
    var w0 := StepWorld(PLAIN, EMPTY, Done(CREATED));
    var w1 := StepWorld(PLAIN, w0, Done(Lost("move", Some(REVEALED))));
    RevealedWorld();
    EmptyInv(PLAIN);
    StepInv(PLAIN, EMPTY, Done(CREATED));
    StepInv(PLAIN, w0, Done(Lost("move", Some(REVEALED))));
    Readings(Records(w1.tasks[0])[0].status);
    ObservedExactly(PLAIN, w1, 0, "i", COMPLETED, true, 0);
    var w2 := StepWorld(PLAIN, w1, Done(c1));
    StepInv(PLAIN, w1, Done(c1));
    assert OwnedIndex(Records(w2.tasks[0]), "i", Action) == 0 && !Terminal(w2.tasks[0]) by { OpenStays(w1.tasks[0], w2.tasks[0]); }
    Readings(Records(w2.tasks[0])[0].status);
    ObservedExactly(PLAIN, w2, 0, "i", NOW_FAILED, true, 0);
    AfterThree(PLAIN, EMPTY, Flips(false));
    RunSplit(PLAIN, EMPTY, Flips(false), [Done(c2)]);
    AfterOne(PLAIN, w2, Done(c2));
    assert Flips(true) == Flips(false) + [Done(c2)];
    assert Flips(false) == [Done(CREATED), Done(Lost("move", Some(REVEALED))), Done(c1)];
  }

  lemma OpenStays(t: Task, t': Task)
    requires t'.status == t.status && !Terminal(t)
    ensures !Terminal(t')
  {}

  lemma AfterOne(cfg: Config, w: World, s: Step)
    ensures After(cfg, w, [s]) == StepWorld(cfg, w, s)
  {}
}
