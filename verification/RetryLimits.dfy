/** Concrete runs that show where the promise never to retry blindly ends. */
module RetryLimits {
  import opened Common
  import opened AgentTask
  import opened Protocol
  import opened TaskInvariants
  import opened WorldInvariants
  import opened Runs
  import opened Retries

  /** A coordinator without bindings or trackers, and the Action that loses its answer. */
  const PLAIN := Config(2, false, false, false)

  /** The POST leaves the process and comes back as an error, perhaps with a payload. */
  function Lost(toolId: string, payload: Option<Dict>): Call
  {
    StartAction(0, toolId, "{}", true, None, Raised(true, payload), true, 0)
  }

  const CREATED := Create("move", Off, Refused)

  lemma CreatedWorld()
    ensures var w := StepWorld(PLAIN, EMPTY, Done(CREATED));
            w == World([NewTask(EMPTY, "move", Off, None)], [], [], {}, {}, {}, 2)
            && Records(w.tasks[0]) == []
  {
    var t := NewTask(EMPTY, "move", Off, None);
    assert Strip("move") == "move";
    assert Script(PLAIN, EMPTY, CREATED) == [Insert(t)];
    FinishOne(EMPTY, Insert(t));
    NewTaskSound(PLAIN, EMPTY, "move", Off, None);
  }

  /** The record once its error came back. */
  function GivenUp(r: Exec, payload: Option<Dict>): Exec
  {
    r.(status := Unknown, invocationId := Identity(Raised(true, payload), "invocation_id"),
       attemptId := Identity(Raised(true, payload), "attempt_id"))
  }

  /** The script of a lost Action on the only, executing, unbound task. */
  lemma LostScript(w: World, toolId: string, payload: Option<Dict>)
    requires |w.tasks| == 1 && w.tasks[0].id == 0 && w.tasks[0].status.Executing?
    requires w.tasks[0].binding.None? && w.tasks[0].beforeRef.None?
    requires toolId != "" && PathSafe(toolId) && !SameUnknown(w.tasks[0], toolId, "{}")
    ensures var t := w.tasks[0];
            var rec := Intent(t, w.nextUid, toolId, Action, UnboundSha(toolId, Action), TaskOwned, "{}", 0);
            var end := GivenUp(rec, payload);
            Script(PLAIN, w, Lost(toolId, payload))
            == [Update(0, MBefore(None)), Update(0, MAppend(rec)),
                Dispatch(Post(rec.caller, toolId, "{}", Action)),
                Update(0, MFinish(rec.id, Unknown, end.invocationId, end.attemptId, None, 0))]
  {
    assert Find(w.tasks, 0) == 0;
  }

  /** One open task without evidence, whose only revision holds these records. */
  ghost predicate Plain(w: World, records: seq<Exec>)
  {
    && |w.tasks| == 1 && w.tasks[0].id == 0 && w.tasks[0].status.Executing?
    && w.tasks[0].binding.None? && w.tasks[0].beforeRef.None?
    && |w.tasks[0].revisions| == 1 && w.tasks[0].revisions[0].id == w.tasks[0].activeRevisionId == 1
    && w.tasks[0].revisions[0].records == records
    && forall k :: 0 <= k < |records| ==> records[k].id < w.nextUid
  }

  lemma PlainRecords(w: World, records: seq<Exec>)
    requires Plain(w, records)
    ensures Records(w.tasks[0]) == records
  {
    var none: seq<Revision> := [];
    assert w.tasks[0].revisions[1..] == none && Flatten(none) == [];
  }

  /** What the lost Action leaves in the store: its intent, or its intent marked unknown. */
  function LostRecord(w: World, toolId: string): Exec
  {
    Exec(w.nextUid, Caller(0, 1, w.nextUid), ToolSpec(Strip(toolId), Action, UnboundSha(toolId, Action)), None,
         TaskOwned, "{}", Pending, None, None, None, 0)
  }

  lemma FreshIndex(records: seq<Exec>, r: Exec)
    requires forall k :: 0 <= k < |records| ==> records[k].id < r.id
    ensures IndexOf(records + [r], r.id) == |records|
  {
    var i := IndexOf(records + [r], r.id);
    assert (records + [r])[|records|] == r;
  }

  lemma LostIntent(w: World, toolId: string, records: seq<Exec>)
    requires Plain(w, records)
    ensures var r := LostRecord(w, toolId);
            var w2 := Apply(Apply(w, Update(0, MBefore(None))), Update(0, MAppend(r)));
            Plain(w2, records + [r]) && w2.posts == w.posts
  {
    assert Find(w.tasks, 0) == 0;
    assert Apply(w, Update(0, MBefore(None))) == w;
  }

  lemma LostOutcome(w: World, records: seq<Exec>, r: Exec, inv: Option<string>, att: Option<string>)
    requires Plain(w, records + [r]) && forall k :: 0 <= k < |records| ==> records[k].id < r.id
    requires r.invocationId.None? && r.attemptId.None? && r.response.None? && r.updatedAt == 0
    ensures var w4 := Apply(w, Update(0, MFinish(r.id, Unknown, inv, att, None, 0)));
            Plain(w4, records + [r.(status := Unknown, invocationId := inv, attemptId := att)]) && w4.posts == w.posts
  {
    var end := r.(status := Unknown, invocationId := inv, attemptId := att);
    assert Find(w.tasks, 0) == 0;
    PlainRecords(w, records + [r]);
    FreshIndex(records, r);
    assert (records + [r])[|records| := end] == records + [end];
  }

  /** Abandoned right after the POST, the intent is still pending; run to its end, it is unknown. */
  lemma LostSends(w: World, toolId: string, records: seq<Exec>, payload: Option<Dict>)
    requires Plain(w, records) && toolId != "" && PathSafe(toolId)
    requires !SameUnknown(w.tasks[0], toolId, "{}")
    ensures var r := LostRecord(w, toolId);
            var p := Post(r.caller, toolId, "{}", Action);
            var w3 := StepWorld(PLAIN, w, Abandoned(Lost(toolId, payload), 3));
            var w4 := StepWorld(PLAIN, w, Done(Lost(toolId, payload)));
            && Plain(w3, records + [r]) && w3.posts == w.posts + [p]
            && Plain(w4, records + [GivenUp(r, payload)]) && w4.posts == w.posts + [p]
  {
    LostScript(w, toolId, payload);
    var s := Script(PLAIN, w, Lost(toolId, payload));
    var r := LostRecord(w, toolId);
    assert s[1] == Update(0, MAppend(r));
    hide PathSafe, SameUnknown, Mutate, Script;
    LostIntent(w, toolId, records);
    CutUnfold(w, s);
    var w3 := Cut(w, s, 3);
    assert Plain(w3, records + [r]);
    LostOutcome(w3, records, r, GivenUp(r, payload).invocationId, GivenUp(r, payload).attemptId);
  }

  lemma CutUnfold(w: World, s: seq<Effect>)
    requires |s| == 4
    ensures Cut(w, s, 3) == Apply(Apply(Apply(w, s[0]), s[1]), s[2])
    ensures Cut(w, s, 4) == Apply(Apply(Apply(Apply(w, s[0]), s[1]), s[2]), s[3])
  {
    hide Apply;
    assert s[1..][1..] == s[2..] && s[2..][1..] == s[3..] && s[3..][1..] == s[4..] && s[4..] == [];
    var w1 := Apply(w, s[0]);
    var w2 := Apply(w1, s[1]);
    assert Cut(w2, s[2..], 1) == Apply(w2, s[2]) by { assert Cut(Apply(w2, s[2]), s[3..], 0) == Apply(w2, s[2]); }
    assert Cut(w2, s[2..], 2) == Cut(Apply(w2, s[2]), s[3..], 1);
    assert Cut(Apply(w2, s[2]), s[3..], 1) == Cut(Apply(Apply(w2, s[2]), s[3]), s[4..], 0);
    assert Cut(w, s, 3) == Cut(w1, s[1..], 2) == Cut(w2, s[2..], 1);
    assert Cut(w, s, 4) == Cut(w1, s[1..], 3) == Cut(w2, s[2..], 2);
  }

  /** Two steps that both send the Action `toolId`, after the task was created. */
  function Twice(toolId: string, completed: bool): seq<Step>
  {
    [Done(CREATED), if completed then Done(Lost(toolId, None)) else Abandoned(Lost(toolId, None), 3), Done(Lost(toolId, None))]
  }

  lemma SecondSend(w: World, toolId: string, r: Exec)
    requires Plain(w, [r]) && toolId != "" && PathSafe(toolId)
    requires r.invocationId.None? && r.caller == Caller(0, 1, r.id)
    requires r.status.Pending? || r.tool.toolId != toolId
    requires w.posts == [Post(r.caller, toolId, "{}", Action)]
    ensures var w' := StepWorld(PLAIN, w, Done(Lost(toolId, None)));
            && |w'.posts| == 2 && w'.posts[0] == w.posts[0] && SameAction(w'.posts[0], w'.posts[1])
            && !Known(w', w'.posts[0])
  {
    hide PathSafe, StepWorld, Known;
    PlainRecords(w, [r]);
    LostSends(w, toolId, [r], None);
    var r2 := GivenUp(LostRecord(w, toolId), None);
    assert [r] + [r2] == [r, r2];
    FirstUnknown(StepWorld(PLAIN, w, Done(Lost(toolId, None))), r, r2, w.posts[0]);
  }

  lemma TwiceReached(toolId: string, completed: bool)
    requires toolId != "" && PathSafe(toolId) && (completed ==> Strip(toolId) != toolId)
    ensures var w := Reached(PLAIN, Twice(toolId, completed));
            && |w.posts| == 2 && SameAction(w.posts[0], w.posts[1]) && w.posts[0].toolId == toolId
            && !Known(w, w.posts[0])
  {
    hide PathSafe, Script, Lost, Strip, Known;
    var s := Twice(toolId, completed);
    var w0 := StepWorld(PLAIN, EMPTY, s[0]);
    CreatedWorld();
    assert Plain(w0, []);
    PlainRecords(w0, []);
    hide StepWorld, SameAction;
    LostSends(w0, toolId, [], None);
    var r := LostRecord(w0, toolId);
    assert r.caller == Caller(0, 1, r.id);
    var r1 := if completed then GivenUp(r, None) else r;
    var w1 := StepWorld(PLAIN, w0, s[1]);
    assert [] + [r1] == [r1];
    assert w1.posts == [Post(r1.caller, toolId, "{}", Action)];
    SecondSend(w1, toolId, r1);
    AfterThree(PLAIN, EMPTY, s);
  }

  lemma FirstUnknown(w: World, r1: Exec, r2: Exec, p: Post)
    requires Plain(w, [r1, r2]) && r1.invocationId.None? && p.caller == Caller(0, 1, r1.id)
    ensures !Known(w, p)
  {
    PlainRecords(w, [r1, r2]);
    assert IndexOf([r1, r2], r1.id) == 0;
    assert Find(w.tasks, 0) == 0;
  }

  lemma AfterThree(cfg: Config, w: World, s: seq<Step>)
    requires |s| == 3
    ensures After(cfg, w, s) == StepWorld(cfg, StepWorld(cfg, StepWorld(cfg, w, s[0]), s[1]), s[2])
  {
    hide StepWorld;
    assert s[1..][1..] == s[2..] && s[2..][1..] == [];
    var w1 := StepWorld(cfg, w, s[0]);
    var w2 := StepWorld(cfg, w1, s[1]);
    assert After(cfg, w2, s[2..]) == StepWorld(cfg, w2, s[2]) by {
      assert After(cfg, StepWorld(cfg, w2, s[2]), []) == StepWorld(cfg, w2, s[2]);
    }
    assert After(cfg, w, s) == After(cfg, w1, s[1..]) == After(cfg, w2, s[2..]);
  }

  /** A turn that is stopped between the POST and the reply, in a process that lives on, leaves a
      pending intent without identity; the very same Action is then POSTed a second time. */
  lemma AbandonedCallRetries()
    ensures var w := Reached(PLAIN, Twice("move", false));
            |w.posts| == 2 && Retried(w.posts[0], w.posts[1]) && !Known(w, w.posts[0])
  {
    assert Strip("move") == "move";
    TwiceReached("move", false);
  }

  /** A Tool identifier written with a blank defeats the guard even without any crash: the record
      keeps the stripped identifier and the guard compares the one it was given. */
  lemma PaddedToolRetries()
    ensures Disciplined(PLAIN, EMPTY, Twice(" m", true), true)
    ensures var w := Reached(PLAIN, Twice(" m", true));
            |w.posts| == 2 && SameAction(w.posts[0], w.posts[1]) && !Known(w, w.posts[0])
  {
    assert StripLeft(" m") == "m" by { assert " m"[1..] == "m"; }
    assert Strip(" m") == "m";
    TwiceReached(" m", true);
    AllDone(PLAIN, EMPTY, Twice(" m", true));
  }

  lemma {:induction false} AllDone(cfg: Config, w: World, steps: seq<Step>)
    requires forall k :: 0 <= k < |steps| ==> steps[k].Done?
    ensures Disciplined(cfg, w, steps, true)
    decreases |steps|
  {
    hide StepWorld;
    if steps != [] { AllDone(cfg, StepWorld(cfg, w, steps[0]), steps[1..]); }
  }
}
