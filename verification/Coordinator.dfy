/** The coordinator as it works: a store of task rows, persisted tracker sets and a Gateway, each
    changed in place. `fuse` counts the durable effects the process lives to perform; every
    operation is proved to leave exactly the prefix of its script that the fuse allows. */
module Coordinator {
  import opened Common
  import opened AgentTask
  import opened Protocol
  import opened WorldInvariants

  /** Task rows in creation order; every method is one transaction. */
  class AgentTaskStore {
    var rows: seq<Task>
    var nextUid: nat

    constructor ()
      ensures rows == [] && nextUid == 0
    {
      rows := [];
      nextUid := 0;
    }

    method Get(id: nat) returns (r: Option<Task>)
      ensures r == if Find(rows, id) < |rows| then Some(rows[Find(rows, id)]) else None
    {
      var i := 0;
      while i < |rows| && rows[i].id != id
        invariant i <= |rows| && forall k :: 0 <= k < i ==> rows[k].id != id
      {
        i := i + 1;
      }
      if i < |rows| { return Some(rows[i]); }
      return None;
    }

    /** The oldest row that is not terminal. */
    method Active() returns (r: Option<Task>)
      ensures r == if ActiveTask(rows) < |rows| then Some(rows[ActiveTask(rows)]) else None
    {
      var i := 0;
      while i < |rows| && Terminal(rows[i])
        invariant i <= |rows| && forall k :: 0 <= k < i ==> Terminal(rows[k])
      {
        i := i + 1;
      }
      if i < |rows| { return Some(rows[i]); }
      return None;
    }

    /** Refused while any row is still open. */
    method Create(t: Task) returns (ok: bool)
      modifies this
      ensures ok <==> ActiveTask(old(rows)) == |old(rows)|
      ensures rows == if ok then old(rows) + [t] else old(rows)
      ensures nextUid == if ok then old(nextUid) + 2 else old(nextUid)
    {
      var open := Active();
      ok := open.None?;
      if ok {
        rows := rows + [t];
        nextUid := nextUid + 2;
      }
    }

    /** Runs a closure on the row with this id, writes the row back and returns it. */
    method Update(id: nat, m: Mutation) returns (r: Option<Task>)
      modifies this
      ensures r == if Find(old(rows), id) < |old(rows)| then Some(Mutate(old(rows)[Find(old(rows), id)], m)) else None
      ensures var i := Find(old(rows), id);
              if i == |old(rows)| then rows == old(rows) && nextUid == old(nextUid)
              else rows == old(rows)[i := Mutate(old(rows)[i], m)] && nextUid == old(nextUid) + Drawn(m)
    {
      var i := 0;
      while i < |rows| && rows[i].id != id
        invariant i <= |rows| && forall k :: 0 <= k < i ==> rows[k].id != id
        invariant rows == old(rows) && nextUid == old(nextUid)
      {
        i := i + 1;
      }
      if i == |rows| { return None; }
      rows := rows[i := Mutate(rows[i], m)];
      nextUid := nextUid + Drawn(m);
      return Some(rows[i]);
    }
  }

  /** One of the identity sets kept in the Runtime state. */
  class PersistentRuntimeSet {
    var ids: set<string>

    constructor ()
      ensures ids == {}
    {
      ids := {};
    }

    method Add(id: string)
      modifies this
      ensures ids == old(ids) + {id}
    {
      ids := ids + {id};
    }

    method Discard(id: string)
      modifies this
      ensures ids == old(ids) - {id}
    {
      ids := ids - {id};
    }
  }

  lemma {:induction false} CutStep(w: World, s: seq<Effect>, k: nat)
    requires k < |s|
    ensures Cut(w, s, k + 1) == Apply(Cut(w, s, k), s[k])
    decreases |s|
  {
    hide Apply;
    if k == 0 {
      assert Cut(Apply(w, s[0]), s[1..], 0) == Apply(w, s[0]);
    } else {
      CutStep(Apply(w, s[0]), s[1..], k - 1);
    }
  }

  function EndRequest(r: Exec): Control
    requires r.invocationId.Some?
  {
    if r.tool.semantics.Session? then StopRequest(r.invocationId.value) else CancelRequest(r.invocationId.value)
  }

  function AnswerFor(r: Exec, answers: map<string, Dict>): Dict
    requires r.invocationId.Some?
  {
    if r.invocationId.value in answers then answers[r.invocationId.value] else FAILURE
  }

  /** Requests and responses of the records from position `i` on. */
  lemma AskedFrom(records: seq<Exec>, answers: map<string, Dict>, i: nat)
    requires i < |records|
    ensures var r := records[i];
            && CancelRequests(records[i..])
               == (if Cancellable(r) then [Ask(EndRequest(r))] else []) + CancelRequests(records[i + 1..])
            && CancelResponses(records[i..], answers)
               == (if Cancellable(r) then [(r.invocationId.value, AnswerFor(r, answers))] else [])
                  + CancelResponses(records[i + 1..], answers)
  {
    assert records[i..][0] == records[i] && records[i..][1..] == records[i + 1..];
  }

  /** What is still to be asked and answered, before and after one more record. */
  ghost predicate Asking(s: seq<Effect>, k: nat, rest: seq<Effect>, records: seq<Exec>, i: nat,
                         answers: map<string, Dict>, responses: seq<(string, Dict)>)
  {
    && i <= |records| && k <= |s| && s[k..] == CancelRequests(records[i..]) + rest
    && CancelResponses(records, answers) == responses + CancelResponses(records[i..], answers)
  }

  lemma AskingNext(s: seq<Effect>, k: nat, rest: seq<Effect>, records: seq<Exec>, i: nat,
                   answers: map<string, Dict>, responses: seq<(string, Dict)>)
    requires Asking(s, k, rest, records, i, answers, responses) && i < |records|
    ensures var r := records[i];
            if Cancellable(r)
            then k < |s| && s[k] == Ask(EndRequest(r))
                 && Asking(s, k + 1, rest, records, i + 1, answers,
                           responses + [(r.invocationId.value, AnswerFor(r, answers))])
            else Asking(s, k, rest, records, i + 1, answers, responses)
  {
    AskedFrom(records, answers, i);
    hide Cancellable, CancelRequests, CancelResponses;
    if Cancellable(records[i]) {
      assert s[k] == s[k..][0];
      assert s[k + 1..] == s[k..][1..];
    }
  }

  lemma NothingLeft(records: seq<Exec>, answers: map<string, Dict>)
    ensures CancelRequests(records[|records|..]) == [] && CancelResponses(records[|records|..], answers) == []
  {}

  lemma CutNone(w: World, s: seq<Effect>)
    ensures Cut(w, s, 0) == w
  {}

  lemma {:induction false} CutPast(w: World, s: seq<Effect>, n: nat)
    requires n >= |s|
    ensures Cut(w, s, n) == Cut(w, s, |s|)
    decreases |s|
  {
    hide Apply;
    if s != [] { CutPast(Apply(w, s[0]), s[1..], n - 1); }
  }

  /** Running the next part of a script from where it stands is finishing that part. */
  lemma Onward(w: World, s: seq<Effect>, k: nat, head: seq<Effect>)
    requires k <= |s| && head <= s[k..]
    ensures Cut(w, s, k + |head|) == Finish(Cut(w, s, k), head)
  {
    hide Apply;
    assert s == s[..k] + s[k..] && s[k..] == head + s[k..][|head|..];
    CutConcat(w, s[..k], s[k..], k + |head|);
    CutConcat(w, s[..k], s[k..], k);
    CutConcat(Cut(w, s, k), head, s[k..][|head|..], |head|);
    CutNone(Cut(w, s, k), s[k..]);
    CutNone(Cut(w, s, k), head);
  }

  lemma DropsRows(w: World, w': World, taskId: nat, invocationId: string, semantics: Semantics, response: Dict)
    requires w'.tasks == w.tasks
    ensures DropsIdentity(w', taskId, invocationId, semantics, response)
            <==> DropsIdentity(w, taskId, invocationId, semantics, response)
  {}

  /** Tracking an identity again changes nothing of what follows it. */
  lemma RecoverKnownRows(cfg: Config, w: World, w': World, taskId: nat, r: Exec, answer: Recovered, at: int)
    requires w'.tasks == w.tasks && r.invocationId.Some?
    ensures RecoverKnownScript(cfg, w', taskId, r, answer, at) == RecoverKnownScript(cfg, w, taskId, r, answer, at)
    ensures answer.StatusAnswered? ==>
              (DropsIdentity(w', taskId, r.invocationId.value, r.tool.semantics, answer.response)
               <==> DropsIdentity(w, taskId, r.invocationId.value, r.tool.semantics, answer.response))
  {
    if answer.StatusAnswered? {
      ObserveScriptRows(cfg, w, w', taskId, r.invocationId.value, r.tool.semantics,
                        answer.response, answer.dropped, at);
      DropsRows(w, w', taskId, r.invocationId.value, r.tool.semantics, answer.response);
    }
  }

  lemma RecoverNext(cfg: Config, w: World, taskId: nat, records: seq<Exec>, i: nat, answers: seq<Recovered>, at: int)
    requires i < |records|
    ensures var head := RecoverOne(cfg, w, taskId, records[i], Answer(answers), at);
            RecoverFrom(cfg, w, taskId, records[i..], answers, at)
            == head + if RecoveryAborts(cfg, w, taskId, records[i], Answer(answers)) then []
                      else RecoverFrom(cfg, Finish(w, head), taskId, records[i + 1..], Rest(answers), at)
  {
    hide RecoverOne, RecoveryAborts, Finish;
    assert records[i..][0] == records[i] && records[i..][1..] == records[i + 1..];
  }

  /** One record further: what of the script is left, and in which world. */
  lemma RecoverStep(cfg: Config, w: World, s: seq<Effect>, k: nat, taskId: nat, records: seq<Exec>, i: nat,
                    answers: seq<Recovered>, at: int)
    requires i < |records| && k <= |s|
    requires s[k..] == RecoverFrom(cfg, Cut(w, s, k), taskId, records[i..], answers, at)
    ensures var head := RecoverOne(cfg, Cut(w, s, k), taskId, records[i], Answer(answers), at);
            var j := k + |head|;
            && head <= s[k..]
            && if RecoveryAborts(cfg, Cut(w, s, k), taskId, records[i], Answer(answers)) then j == |s|
               else s[j..] == RecoverFrom(cfg, Cut(w, s, j), taskId, records[i + 1..], Rest(answers), at)
  {
    hide RecoverOne, RecoveryAborts, RecoverFrom, Cut;
    var head := RecoverOne(cfg, Cut(w, s, k), taskId, records[i], Answer(answers), at);
    RecoverNext(cfg, Cut(w, s, k), taskId, records, i, answers, at);
    Onward(w, s, k, head);
    assert s[k + |head|..] == s[k..][|head|..];
  }

  lemma RecoverNone(cfg: Config, w: World, taskId: nat, records: seq<Exec>, answers: seq<Recovered>, at: int)
    ensures RecoverFrom(cfg, w, taskId, records[|records|..], answers, at) == []
  {}

  class AgentTaskCoordinator {
    const cfg: Config
    const store: AgentTaskStore
    const invocations: PersistentRuntimeSet
    const sessions: PersistentRuntimeSet
    const bindings: PersistentRuntimeSet
    var posts: seq<Post>
    var controls: seq<Control>
    var fuse: nat

    constructor (cfg: Config, fuse: nat)
      ensures Valid() && fresh(Objects() - {this}) && this.cfg == cfg && this.fuse == fuse && Snapshot() == EMPTY
    {
      this.cfg := cfg;
      this.fuse := fuse;
      store := new AgentTaskStore();
      invocations := new PersistentRuntimeSet();
      sessions := new PersistentRuntimeSet();
      bindings := new PersistentRuntimeSet();
      posts := [];
      controls := [];
    }

    ghost predicate Valid()
    {
      invocations != sessions && invocations != bindings && sessions != bindings
    }

    ghost function Objects(): set<object>
    {
      {this, store, invocations, sessions, bindings}
    }

    /** Everything that outlives the process. */
    ghost function Snapshot(): World
      reads this, store, invocations, sessions, bindings
    {
      World(store.rows, posts, controls, invocations.ids, sessions.ids, bindings.ids, store.nextUid)
    }

    // ---- Single effects ----------------------------------------------------------------------

    /** `k` effects of the script have happened, and the fuse is shorter by as many. */
    ghost predicate At(w: World, s: seq<Effect>, k: nat, n: nat)
      reads this, store, invocations, sessions, bindings
    {
      Valid() && k <= |s| && fuse + k == n && Snapshot() == Cut(w, s, k)
    }

    /** The call is over: the script ran out, or the process died before its next effect. */
    lemma Ended(w: World, s: seq<Effect>, k: nat, n: nat)
      requires At(w, s, k, n) && (k == |s| || fuse == 0)
      ensures Snapshot() == Cut(w, s, n)
    {
      if k == |s| { CutPast(w, s, n); }
    }

    method Commit(id: nat, m: Mutation, ghost w: World, ghost s: seq<Effect>, ghost k: nat, ghost n: nat)
      returns (alive: bool, row: Option<Task>)
      requires At(w, s, k, n) && k < |s| && s[k] == Effect.Update(id, m)
      modifies this`fuse, store
      ensures alive ==> At(w, s, k + 1, n)
      ensures alive && Find(old(store.rows), id) < |old(store.rows)| ==>
                && row == Some(Mutate(old(store.rows)[Find(old(store.rows), id)], m))
                && store.rows == old(store.rows)[Find(old(store.rows), id) := row.value]
                && store.nextUid == old(store.nextUid) + Drawn(m)
      ensures !alive ==> At(w, s, k, n) && fuse == 0
    {
      if fuse == 0 { return false, None; }
      CutStep(w, s, k);
      fuse := fuse - 1;
      row := store.Update(id, m);
      return true, row;
    }

    method Send(p: Post, ghost w: World, ghost s: seq<Effect>, ghost k: nat, ghost n: nat) returns (alive: bool)
      requires At(w, s, k, n) && k < |s| && s[k] == Dispatch(p)
      modifies this`fuse, this`posts
      ensures alive ==> At(w, s, k + 1, n)
      ensures !alive ==> At(w, s, k, n) && fuse == 0
    {
      if fuse == 0 { return false; }
      CutStep(w, s, k);
      fuse := fuse - 1;
      posts := posts + [p];
      return true;
    }

    method Control(c: Control, ghost w: World, ghost s: seq<Effect>, ghost k: nat, ghost n: nat) returns (alive: bool)
      requires At(w, s, k, n) && k < |s| && s[k] == Ask(c)
      modifies this`fuse, this`controls
      ensures alive ==> At(w, s, k + 1, n)
      ensures !alive ==> At(w, s, k, n) && fuse == 0
    {
      if fuse == 0 { return false; }
      CutStep(w, s, k);
      fuse := fuse - 1;
      controls := controls + [c];
      return true;
    }

    method Hold(which: Tracker, id: string, ghost w: World, ghost s: seq<Effect>, ghost k: nat, ghost n: nat)
      returns (alive: bool)
      requires At(w, s, k, n) && k < |s| && s[k] == Track(which, id)
      modifies this`fuse, invocations, sessions, bindings
      ensures alive ==> At(w, s, k + 1, n)
      ensures !alive ==> At(w, s, k, n) && fuse == 0
    {
      if fuse == 0 { return false; }
      CutStep(w, s, k);
      fuse := fuse - 1;
      match which {
        case Invocations => invocations.Add(id);
        case Sessions => sessions.Add(id);
        case Bindings => bindings.Add(id);
      }
      return true;
    }

    method Drop(which: Tracker, id: string, ghost w: World, ghost s: seq<Effect>, ghost k: nat, ghost n: nat)
      returns (alive: bool)
      requires At(w, s, k, n) && k < |s| && s[k] == Untrack(which, id)
      modifies this`fuse, invocations, sessions, bindings
      ensures alive ==> At(w, s, k + 1, n)
      ensures !alive ==> At(w, s, k, n) && fuse == 0
    {
      if fuse == 0 { return false; }
      CutStep(w, s, k);
      fuse := fuse - 1;
      match which {
        case Invocations => invocations.Discard(id);
        case Sessions => sessions.Discard(id);
        case Bindings => bindings.Discard(id);
      }
      return true;
    }

    // ---- Operations ----------------------------------------------------------------------------

    /** A refused row leaves nothing behind; an accepted one is one effect. */
    method Insert(t: Task, ghost w: World, ghost s: seq<Effect>, ghost k: nat, ghost n: nat)
      returns (alive: bool, ok: bool)
      requires At(w, s, k, n)
      requires ActiveTask(store.rows) == |store.rows| ==> k < |s| && s[k] == Effect.Insert(t)
      modifies this`fuse, store
      ensures alive && ok ==> At(w, s, k + 1, n)
      ensures !(alive && ok) ==> At(w, s, k, n)
      ensures alive ==> (ok <==> ActiveTask(old(store.rows)) == |old(store.rows)|)
      ensures !alive ==> fuse == 0
    {
      if fuse == 0 { return false, false; }
      ok := store.Create(t);
      if ok {
        CutStep(w, s, k);
        fuse := fuse - 1;
      }
      return true, ok;
    }

    /** Creation is refused without a verifier for a verified mode, without a frozen binding where
        one is required, for a blank goal, and while another task is open. */
    method CreateTask(description: string, mode: Mode, freeze: Freeze)
      requires Valid()
      modifies this, store, invocations, sessions, bindings
      ensures Snapshot() == Cut(old(Snapshot()), CreateScript(cfg, old(Snapshot()), Create(description, mode, freeze)),
                                old(fuse))
    {
      hide Mutate, Strip;
      ghost var w, n := Snapshot(), fuse;
      ghost var s := CreateScript(cfg, w, Create(description, mode, freeze));
      if (!mode.Off? && !cfg.verifier) || (cfg.bound && !freeze.Frozen?) || Strip(description) == "" {
        Ended(w, s, 0, n);
        return;
      }
      var binding := if cfg.bound then Some(freeze.binding) else None;
      var held := binding.Some? && cfg.tracked;
      ghost var k := 0;
      if held {
        var alive := Hold(Bindings, binding.value.id, w, s, 0, n);
        if !alive { Ended(w, s, 0, n); return; }
        k := 1;
      }
      var id := if binding.Some? then Some(binding.value.id) else None;
      var t := Task(store.nextUid, Strip(description), mode, Executing,
                    [Revision(store.nextUid + 1, 1, "initial plan", id, [], None, [], false)], store.nextUid + 1,
                    binding, None, [], None, None, None, false, None);
      var alive, ok := Insert(t, w, s, k, n);
      if !alive { Ended(w, s, k, n); return; }
      if ok { Ended(w, s, k + 1, n); return; }
      if held {
        alive := Drop(Bindings, binding.value.id, w, s, k, n);
        if alive { Ended(w, s, k + 1, n); } else { Ended(w, s, k, n); }
      } else {
        Ended(w, s, k, n);
      }
    }

    /** The binding is released once nothing remote is left open. */
    method Release(t: Task, ghost w: World, ghost s: seq<Effect>, ghost k: nat, ghost n: nat)
      requires At(w, s, k, n) && s[k..] == Protocol.Release(cfg, t)
      modifies this`fuse, invocations, sessions, bindings
      ensures Snapshot() == Cut(w, s, n)
    {
      if Terminal(t) && t.binding.Some? && cfg.tracked && !HasUnknownRemote(t) {
        assert s[k..][0] == s[k];
        var alive := Drop(Bindings, t.binding.value.id, w, s, k, n);
        if alive { Ended(w, s, k + 1, n); } else { Ended(w, s, k, n); }
      } else {
        Ended(w, s, k, n);
      }
    }

    method BeginRevision(taskId: nat, reason: string, now: int)
      requires Valid()
      modifies this, store, invocations, sessions, bindings
      ensures Snapshot() == Cut(old(Snapshot()), BeginRevisionScript(cfg, old(Snapshot()),
                                                 Call.BeginRevision(taskId, reason, now)), old(fuse))
    {
      ghost var w, n := Snapshot(), fuse;
      ghost var s := BeginRevisionScript(cfg, w, Call.BeginRevision(taskId, reason, now));
      var task := store.Get(taskId);
      if task.None? || !task.value.status.AwaitingReplan? { Ended(w, s, 0, n); return; }
      var t := task.value;
      if t.replanDeadline.Some? && now >= t.replanDeadline.value {
        var alive, failed := Commit(taskId, MFailReplan, w, s, 0, n);
        if !alive { Ended(w, s, 0, n); return; }
        assert s[1..] == Protocol.Release(cfg, failed.value);
        Release(failed.value, w, s, 1, n);
        return;
      }
      if |t.revisions| - 1 >= cfg.maxReplans || Strip(reason) == "" { Ended(w, s, 0, n); return; }
      var alive, row := Commit(taskId, MBeginRevision(store.nextUid, Strip(reason)), w, s, 0, n);
      if alive { Ended(w, s, 1, n); } else { Ended(w, s, 0, n); }
    }

    /** The request itself; a failing transport may not even get it out of the process. */
    method Exchange(reply: Reply, p: Post, ghost w: World, ghost s: seq<Effect>, ghost k: nat, ghost n: nat)
      returns (alive: bool, ghost k': nat)
      requires At(w, s, k, n) && Sent(reply, p) <= s[k..]
      modifies this`fuse, this`posts
      ensures alive ==> At(w, s, k', n) && k' == k + |Sent(reply, p)|
      ensures !alive ==> At(w, s, k, n) && fuse == 0
    {
      k' := k;
      alive := true;
      if reply.Answered? || reply.sent {
        assert s[k..][0] == s[k];
        alive := Send(p, w, s, k, n);
        k' := k + 1;
      }
    }

    method InvokeQuery(taskId: nat, toolId: string, arguments: string, live: bool, reply: Reply, at: int)
      requires Valid()
      modifies this, store, invocations, sessions, bindings
      ensures Snapshot() == Cut(old(Snapshot()), QueryScript(cfg, old(Snapshot()),
                                Call.InvokeQuery(taskId, toolId, arguments, live, reply, at)), old(fuse))
    {
      hide Cut, Mutate, AdmittedTool, PathSafe;
      ghost var w, n := Snapshot(), fuse;
      ghost var s := QueryScript(cfg, w, Call.InvokeQuery(taskId, toolId, arguments, live, reply, at));
      CutNone(w, s);
      var task := store.Get(taskId);
      if task.None? { Ended(w, s, 0, n); return; }
      var t := task.value;
      var sha := AdmittedTool(cfg, t, toolId, Query, live);
      if sha.None? || !PathSafe(toolId) { Ended(w, s, 0, n); return; }
      var rec := Intent(t, store.nextUid, toolId, Query, sha.value, TaskOwned, arguments, at);
      var alive, row := Commit(taskId, MAppend(rec), w, s, 0, n);
      if !alive { Ended(w, s, 0, n); return; }
      var p := Post(rec.caller, toolId, arguments, Query);
      ghost var k: nat;
      alive, k := Exchange(reply, p, w, s, 1, n);
      if !alive { Ended(w, s, 1, n); return; }
      var outcome := match reply
                     case Answered(r) => MFinish(rec.id, ToolStatus.Succeeded, None, None, Some(r), at)
                     case Raised(_, _) => MFinish(rec.id, Unknown, None, None, None, at);
      alive, row := Commit(taskId, outcome, w, s, k, n);
      if alive { Ended(w, s, k + 1, n); } else { Ended(w, s, k, n); }
    }

    /** From the committed intent of a remote start to its recorded outcome and tracked identity. */
    method StartRemote(taskId: nat, rec: Exec, toolId: string, reply: Reply, trackedOk: bool, at: int,
                       ghost w: World, ghost s: seq<Effect>, ghost k: nat, ghost n: nat)
      requires At(w, s, k, n) && s[k..] == RemoteScript(cfg, taskId, rec, toolId, reply, trackedOk, at)
      modifies this, store, invocations, sessions, bindings
      ensures Snapshot() == Cut(w, s, n)
    {
      hide Cut, Mutate, StrField, Warned;
      var kind := rec.tool.semantics;
      var inv := Identity(reply, "invocation_id");
      var att := Identity(reply, "attempt_id");
      ghost var j: nat;
      var alive: bool;
      var row: Option<Task>;
      alive, j := Exchange(reply, Post(rec.caller, toolId, rec.arguments, kind), w, s, k, n);
      if !alive { Ended(w, s, k, n); return; }
      var accepted := Admitted(reply, kind);
      var outcome := if accepted then MAccept(rec.id, inv.value, att, reply.response, at)
                     else MFinish(rec.id, Unknown, inv, att, None, at);
      assert s[j] == s[k..][j - k];
      alive, row := Commit(taskId, outcome, w, s, j, n);
      if !alive { Ended(w, s, j, n); return; }
      if inv.None? || !cfg.tracked { Ended(w, s, j + 1, n); return; }
      assert s[j + 1] == s[k..][j + 1 - k];
      if trackedOk {
        alive := Hold(TrackerOf(kind), inv.value, w, s, j + 1, n);
      } else {
        var response := if accepted then reply.response else FAILURE;
        alive, row := Commit(taskId, MRespond(rec.id, Warned(response), at), w, s, j + 1, n);
      }
      if alive { Ended(w, s, j + 2, n); } else { Ended(w, s, j + 1, n); }
    }

    method StartAction(taskId: nat, toolId: string, arguments: string, live: bool, before: Option<string>,
                       reply: Reply, trackedOk: bool, at: int)
      requires Valid()
      modifies this, store, invocations, sessions, bindings
      ensures Snapshot() == Cut(old(Snapshot()), ActionScript(cfg, old(Snapshot()),
                                Call.StartAction(taskId, toolId, arguments, live, before, reply, trackedOk, at)), old(fuse))
    {
      hide Cut, Mutate, RemoteScript, SameUnknown, AdmittedTool, PathSafe;
      ghost var w, n := Snapshot(), fuse;
      ghost var s := ActionScript(cfg, w, Call.StartAction(taskId, toolId, arguments, live, before, reply, trackedOk, at));
      CutNone(w, s);
      var task := store.Get(taskId);
      if task.None? || !task.value.status.Executing? { Ended(w, s, 0, n); return; }
      var t := task.value;
      if SameUnknown(t, toolId, arguments) { Ended(w, s, 0, n); return; }
      var sha := AdmittedTool(cfg, t, toolId, Action, live);
      if sha.None? { Ended(w, s, 0, n); return; }
      ghost var k := 0;
      if t.beforeRef.None? {
        var alive, row := Commit(taskId, MBefore(before), w, s, 0, n);
        if !alive { Ended(w, s, 0, n); return; }
        k := 1;
      }
      if !PathSafe(toolId) { Ended(w, s, k, n); return; }
      var rec := Intent(t, store.nextUid, toolId, Action, sha.value, TaskOwned, arguments, at);
      var alive, row := Commit(taskId, MAppend(rec), w, s, k, n);
      if !alive { Ended(w, s, k, n); return; }
      assert s[k + 1..] == RemoteScript(cfg, taskId, rec, toolId, reply, trackedOk, at);
      StartRemote(taskId, rec, toolId, reply, trackedOk, at, w, s, k + 1, n);
    }

    method StartSession(taskId: nat, toolId: string, arguments: string, ownership: Ownership, live: bool,
                        reply: Reply, trackedOk: bool, at: int)
      requires Valid()
      modifies this, store, invocations, sessions, bindings
      ensures Snapshot() == Cut(old(Snapshot()), SessionScript(cfg, old(Snapshot()),
                                Call.StartSession(taskId, toolId, arguments, ownership, live, reply, trackedOk, at)), old(fuse))
    {
      hide Cut, Mutate, RemoteScript, AdmittedTool, PathSafe;
      ghost var w, n := Snapshot(), fuse;
      ghost var s := SessionScript(cfg, w, Call.StartSession(taskId, toolId, arguments, ownership, live, reply, trackedOk, at));
      CutNone(w, s);
      var task := store.Get(taskId);
      if ownership.RuntimeOwned? || task.None? { Ended(w, s, 0, n); return; }
      var t := task.value;
      var sha := AdmittedTool(cfg, t, toolId, Session, live);
      if sha.None? || !PathSafe(toolId) { Ended(w, s, 0, n); return; }
      var rec := Intent(t, store.nextUid, toolId, Session, sha.value, ownership, arguments, at);
      var alive, row := Commit(taskId, MAppend(rec), w, s, 0, n);
      if !alive { Ended(w, s, 0, n); return; }
      assert s[1..] == RemoteScript(cfg, taskId, rec, toolId, reply, trackedOk, at);
      StartRemote(taskId, rec, toolId, reply, trackedOk, at, w, s, 1, n);
    }

    /** One observation, as a whole call or as a step of recovery. */
    method Observe(taskId: nat, invocationId: string, semantics: Semantics, response: Dict, dropped: bool, at: int,
                   ghost w: World, ghost s: seq<Effect>, ghost k: nat, ghost n: nat)
      returns (alive: bool, raised: bool, ghost k': nat)
      requires At(w, s, k, n) && !semantics.Query?
      requires ObserveScript(cfg, Snapshot(), taskId, invocationId, semantics, response, dropped, at) <= s[k..]
      modifies this, store, invocations, sessions, bindings
      ensures At(w, s, k', n) && (!alive ==> fuse == 0)
      ensures alive ==> k' == k + |ObserveScript(cfg, old(Snapshot()), taskId, invocationId, semantics, response, dropped, at)|
      ensures alive ==> (raised <==> cfg.tracked && !dropped
                                     && DropsIdentity(old(Snapshot()), taskId, invocationId, semantics, response))
    {
      hide Cut, Mutate, StatusOf, Records;
      k', alive, raised := k, true, false;
      var row: Option<Task>;
      var task := store.Get(taskId);
      if task.None? { return; }
      var t := task.value;
      var i := OwnedIndex(Records(t), invocationId, semantics);
      if i == |Records(t)| || (semantics.Action? && Terminal(t)) { return; }
      var status := StatusOf(response, Records(t)[i].status);
      assert s[k] == s[k..][0];
      alive, row := Commit(taskId, MObserve(Records(t)[i].id, status, response, at), w, s, k, n);
      if !alive { return; }
      k' := k + 1;
      raised := Definite(status) && cfg.tracked && !dropped;
      if Definite(status) && cfg.tracked && dropped {
        assert s[k + 1] == s[k..][1];
        alive := Drop(TrackerOf(semantics), invocationId, w, s, k + 1, n);
        if alive { k' := k + 2; }
      }
    }

    method ObserveAction(taskId: nat, invocationId: string, response: Dict, dropped: bool, at: int)
      requires Valid()
      modifies this, store, invocations, sessions, bindings
      ensures Snapshot() == Cut(old(Snapshot()),
                ObserveScript(cfg, old(Snapshot()), taskId, invocationId, Action, response, dropped, at), old(fuse))
    {
      ghost var w, n := Snapshot(), fuse;
      ghost var s := ObserveScript(cfg, w, taskId, invocationId, Action, response, dropped, at);
      assert s[0..] == s;
      var alive: bool, raised: bool;
      ghost var k: nat;
      alive, raised, k := Observe(taskId, invocationId, Action, response, dropped, at, w, s, 0, n);
      Ended(w, s, k, n);
    }

    method ObserveSession(taskId: nat, invocationId: string, response: Dict, dropped: bool, at: int)
      requires Valid()
      modifies this, store, invocations, sessions, bindings
      ensures Snapshot() == Cut(old(Snapshot()),
                ObserveScript(cfg, old(Snapshot()), taskId, invocationId, Session, response, dropped, at), old(fuse))
    {
      ghost var w, n := Snapshot(), fuse;
      ghost var s := ObserveScript(cfg, w, taskId, invocationId, Session, response, dropped, at);
      assert s[0..] == s;
      var alive: bool, raised: bool;
      ghost var k: nat;
      alive, raised, k := Observe(taskId, invocationId, Session, response, dropped, at, w, s, 0, n);
      Ended(w, s, k, n);
    }

    method RecordCancel(taskId: nat, invocationId: string, response: Dict, at: int)
      requires Valid()
      modifies this, store, invocations, sessions, bindings
      ensures Snapshot() == Cut(old(Snapshot()),
                RecordCancelScript(old(Snapshot()), Call.RecordCancel(taskId, invocationId, response, at)), old(fuse))
    {
      ghost var w, n := Snapshot(), fuse;
      ghost var s := RecordCancelScript(w, Call.RecordCancel(taskId, invocationId, response, at));
      var task := store.Get(taskId);
      if task.None? { Ended(w, s, 0, n); return; }
      var i := OwnedIndex(Records(task.value), invocationId, Action);
      if i == |Records(task.value)| || Terminal(task.value) { Ended(w, s, 0, n); return; }
      var alive, row := Commit(taskId, MRespond(Records(task.value)[i].id, response, at), w, s, 0, n);
      if alive { Ended(w, s, 1, n); } else { Ended(w, s, 0, n); }
    }

    method StopSession(taskId: nat, invocationId: string, answer: Option<Dict>, at: int)
      requires Valid()
      modifies this, store, invocations, sessions, bindings
      ensures Snapshot() == Cut(old(Snapshot()),
                StopSessionScript(old(Snapshot()), Call.StopSession(taskId, invocationId, answer, at)), old(fuse))
    {
      ghost var w, n := Snapshot(), fuse;
      ghost var s := StopSessionScript(w, Call.StopSession(taskId, invocationId, answer, at));
      var task := store.Get(taskId);
      if task.None? { Ended(w, s, 0, n); return; }
      var i := OwnedIndex(Records(task.value), invocationId, Session);
      if i == |Records(task.value)| || !Records(task.value)[i].ownership.TaskOwned? { Ended(w, s, 0, n); return; }
      var row: Option<Task>;
      var alive := Control(StopRequest(invocationId), w, s, 0, n);
      if !alive { Ended(w, s, 0, n); return; }
      if answer.None? { Ended(w, s, 1, n); return; }
      alive, row := Commit(taskId, MRespond(Records(task.value)[i].id, answer.value, at), w, s, 1, n);
      if alive { Ended(w, s, 2, n); } else { Ended(w, s, 1, n); }
    }

    /** One control request for every owned execution that is still open and has an identity. */
    method AskAll(records: seq<Exec>, answers: map<string, Dict>, ghost rest: seq<Effect>,
                  ghost w: World, ghost s: seq<Effect>, ghost n: nat)
      returns (alive: bool, responses: seq<(string, Dict)>, ghost k: nat)
      requires At(w, s, 0, n) && s == CancelRequests(records) + rest
      modifies this`fuse, this`controls
      ensures At(w, s, k, n) && (!alive ==> fuse == 0)
      ensures alive ==> s[k..] == rest && responses == CancelResponses(records, answers)
    {
      responses, k, alive := [], 0, true;
      var i := 0;
      assert records[0..] == records && s[0..] == s;
      while i < |records|
        invariant At(w, s, k, n) && Asking(s, k, rest, records, i, answers, responses)
      {
        hide Cut, Asking;
        AskingNext(s, k, rest, records, i, answers, responses);
        if Cancellable(records[i]) {
          alive := Control(EndRequest(records[i]), w, s, k, n);
          if !alive { return; }
          responses := responses + [(records[i].invocationId.value, AnswerFor(records[i], answers))];
          k := k + 1;
        }
        i := i + 1;
      }
      NothingLeft(records, answers);
    }

    /** Asks the Gateway first, then commits the request whatever the Gateway answered. */
    method CancelTask(taskId: nat, answers: map<string, Dict>, at: int)
      requires Valid()
      modifies this, store, invocations, sessions, bindings
      ensures Snapshot() == Cut(old(Snapshot()),
                CancelScript(cfg, old(Snapshot()), Call.CancelTask(taskId, answers, at)), old(fuse))
    {
      hide Cut, Mutate, Records, CancelRequests, CancelResponses;
      ghost var w, n := Snapshot(), fuse;
      ghost var s := CancelScript(cfg, w, Call.CancelTask(taskId, answers, at));
      CutNone(w, s);
      var task := store.Get(taskId);
      if task.None? || Terminal(task.value) { Ended(w, s, 0, n); return; }
      ghost var m := CancelMutation(task.value, answers, at);
      ghost var rest := [Effect.Update(taskId, m)] + Protocol.Release(cfg, Mutate(task.value, m));
      assert s == CancelRequests(Records(task.value)) + rest;
      ghost var k: nat;
      var responses: seq<(string, Dict)>;
      var alive: bool;
      alive, responses, k := AskAll(Records(task.value), answers, rest, w, s, n);
      if !alive { Ended(w, s, k, n); return; }
      assert s[k] == s[k..][0];
      var result: Option<Task>;
      alive, result := Commit(taskId, MCancel(responses != [], responses, at), w, s, k, n);
      if !alive { Ended(w, s, k, n); return; }
      assert s[k + 1..] == rest[1..];
      Release(result.value, w, s, k + 1, n);
    }

    /** How a finalized task closes: cancellation first, then by its verification mode. */
    method ClosingStep(t: Task, verifier: VerifierReply, now: int) returns (m: Mutation)
      ensures m == Closing(cfg, t, verifier, now)
    {
      hide CancelStatus, FactsSucceeded;
      if t.cancellationRequested {
        return MSetStatus(CancelStatus(t));
      }
      if t.mode.Off? {
        return MSetStatus(if FactsSucceeded(t) then TaskStatus.Succeeded else TaskStatus.Failed);
      }
      if !cfg.verifier || verifier.VerifierFailed? {
        var status := if t.mode.Audit? && FactsSucceeded(t) then TaskStatus.Succeeded else TaskStatus.Failed;
        return MVerificationError(status, Attempt(verifier.attempt.id, None));
      }
      return MVerified(verifier.verdict, verifier.attempt, cfg.maxReplans, now + REPLAN_TIMEOUT);
    }

    method FinalizeTask(taskId: nat, captured: bool, after: Option<string>, bundle: string,
                        verifier: VerifierReply, now: int)
      requires Valid()
      modifies this, store, invocations, sessions, bindings
      ensures Snapshot() == Cut(old(Snapshot()), FinalizeScript(cfg, old(Snapshot()),
                                Finalize(taskId, captured, after, bundle, verifier, now)), old(fuse))
    {
      ghost var w, n := Snapshot(), fuse;
      ghost var s := FinalizeScript(cfg, w, Finalize(taskId, captured, after, bundle, verifier, now));
      var task := store.Get(taskId);
      if task.None? || Terminal(task.value) { Ended(w, s, 0, n); return; }
      if OwnedPending(task.value) || Records(task.value) == [] || !captured { Ended(w, s, 0, n); return; }
      var alive, row := Commit(taskId, MAfter(after, bundle), w, s, 0, n);
      if !alive { Ended(w, s, 0, n); return; }
      FindKept(w.tasks, taskId, row.value);
      task := store.Get(taskId);
      hide Cut, Mutate, Records, HasUnknownRemote, OwnedPending, Closing;
      var m := ClosingStep(task.value, verifier, now);
      var result: Option<Task>;
      alive, result := Commit(taskId, m, w, s, 1, n);
      if !alive { Ended(w, s, 1, n); return; }
      assert s[2..] == Protocol.Release(cfg, result.value);
      Release(result.value, w, s, 2, n);
    }

    /** What recovery writes for an open record with an identity, once that identity is tracked again. */
    method RecoverKnown(taskId: nat, r: Exec, answer: Recovered, at: int,
                        ghost w: World, ghost s: seq<Effect>, ghost k: nat, ghost n: nat)
      returns (alive: bool, raised: bool, ghost k': nat)
      requires At(w, s, k, n) && !r.tool.semantics.Query? && r.invocationId.Some?
      requires RecoverKnownScript(cfg, Snapshot(), taskId, r, answer, at) <= s[k..]
      modifies this, store, invocations, sessions, bindings
      ensures At(w, s, k', n) && (!alive ==> fuse == 0)
      ensures alive ==> k' == k + |RecoverKnownScript(cfg, old(Snapshot()), taskId, r, answer, at)|
      ensures alive ==> (raised <==> cfg.tracked && answer.StatusAnswered? && !answer.dropped
                                     && DropsIdentity(old(Snapshot()), taskId, r.invocationId.value,
                                                      r.tool.semantics, answer.response))
    {
      hide Cut, Mutate, ObserveScript, DropsIdentity;
      if answer.StatusAnswered? {
        alive, raised, k' := Observe(taskId, r.invocationId.value, r.tool.semantics, answer.response, answer.dropped,
                                     at, w, s, k, n);
      } else {
        assert s[k] == s[k..][0];
        var row: Option<Task>;
        k', raised := k, false;
        alive, row := Commit(taskId, MFinish(r.id, Unknown, r.invocationId, r.attemptId, None, at), w, s, k, n);
        if alive { k' := k + 1; }
      }
    }

    /** Repairs one record from what the Gateway reports; a failing tracker write ends recovery. */
    method RecoverRecord(taskId: nat, r: Exec, answer: Recovered, at: int,
                         ghost w: World, ghost s: seq<Effect>, ghost k: nat, ghost n: nat)
      returns (alive: bool, aborted: bool, ghost k': nat)
      requires At(w, s, k, n) && RecoverOne(cfg, Snapshot(), taskId, r, answer, at) <= s[k..]
      modifies this, store, invocations, sessions, bindings
      ensures At(w, s, k', n) && (!alive ==> fuse == 0)
      ensures alive ==> k' == k + |RecoverOne(cfg, old(Snapshot()), taskId, r, answer, at)|
      ensures alive ==> (aborted <==> RecoveryAborts(cfg, old(Snapshot()), taskId, r, answer))
    {
      hide Cut, Mutate, RecoverKnownScript, DropsIdentity;
      ghost var w0 := Snapshot();
      k', alive, aborted := k, true, false;
      var row: Option<Task>;
      if ToolTerminal(r.status) || r.tool.semantics.Query? { return; }
      if r.invocationId.None? {
        assert s[k] == s[k..][0];
        alive, row := Commit(taskId, MFinish(r.id, Unknown, None, None, None, at), w, s, k, n);
        if alive { k' := k + 1; }
        return;
      }
      if cfg.tracked {
        if answer.TrackerFailed? { aborted := true; return; }
        assert s[k] == s[k..][0];
        alive := Hold(TrackerOf(r.tool.semantics), r.invocationId.value, w, s, k, n);
        if !alive { return; }
        k' := k + 1;
      }
      assert s[k'..] == s[k..][k' - k..];
      RecoverKnownRows(cfg, w0, Snapshot(), taskId, r, answer, at);
      alive, aborted, k' := RecoverKnown(taskId, r, answer, at, w, s, k', n);
    }

    method RecoverAll(taskId: nat, records: seq<Exec>, found: seq<Recovered>, at: int,
                      ghost w: World, ghost s: seq<Effect>, ghost k0: nat, ghost n: nat)
      requires At(w, s, k0, n) && s[k0..] == RecoverFrom(cfg, Snapshot(), taskId, records, found, at)
      modifies this, store, invocations, sessions, bindings
      ensures Snapshot() == Cut(w, s, n)
    {
      hide Cut, Mutate, RecoverFrom, RecoverOne, RecoveryAborts;
      var answers, i := found, 0;
      ghost var k := k0;
      assert records[0..] == records;
      while i < |records|
        invariant i <= |records| && At(w, s, k, n)
        invariant s[k..] == RecoverFrom(cfg, Snapshot(), taskId, records[i..], answers, at)
      {
        RecoverStep(cfg, w, s, k, taskId, records, i, answers, at);
        var alive: bool, aborted: bool;
        ghost var j: nat;
        alive, aborted, j := RecoverRecord(taskId, records[i], Answer(answers), at, w, s, k, n);
        if !alive || aborted { Ended(w, s, j, n); return; }
        k, answers, i := j, Rest(answers), i + 1;
      }
      RecoverNone(cfg, Snapshot(), taskId, records, answers, at);
      Ended(w, s, k, n);
    }

    /** Repairs the oldest open task from status requests alone. */
    method ReconcileNonterminal(found: seq<Recovered>, bindingTracked: bool, at: int)
      requires Valid()
      modifies this, store, invocations, sessions, bindings
      ensures Snapshot() == Cut(old(Snapshot()),
                ReconcileScript(cfg, old(Snapshot()), Reconcile(found, bindingTracked, at)), old(fuse))
    {
      hide Cut, Mutate, RecoverFrom, RecoverOne, RecoveryAborts;
      ghost var w, n := Snapshot(), fuse;
      ghost var s := ReconcileScript(cfg, w, Reconcile(found, bindingTracked, at));
      CutNone(w, s);
      var task := store.Active();
      if task.None? { Ended(w, s, 0, n); return; }
      var t := task.value;
      ghost var k: nat := 0;
      if t.binding.Some? && cfg.tracked {
        if !bindingTracked { Ended(w, s, 0, n); return; }
        var held := Hold(Bindings, t.binding.value.id, w, s, 0, n);
        if !held { Ended(w, s, 0, n); return; }
        k := 1;
      }
      Onward(w, s, 0, Protocol.Hold(cfg, t));
      RecoverAll(t.id, Records(t), found, at, w, s, k, n);
    }

    /** Any call, on any state, dying anywhere: what outlives the process is the prefix of the
        call's script that it lived to perform, and the invariant survives with it. */
    method Perform(c: Call)
      requires Valid()
      modifies this, store, invocations, sessions, bindings
      ensures Snapshot() == Cut(old(Snapshot()), Script(cfg, old(Snapshot()), c), old(fuse))
      ensures old(Inv(cfg, Snapshot())) ==> Inv(cfg, Snapshot()) && Grows(old(Snapshot()), Snapshot())
    {
      hide Cut, Inv, Grows, Legal, CreateScript, BeginRevisionScript, QueryScript, ActionScript, SessionScript;
      hide ObserveScript, RecordCancelScript, StopSessionScript, CancelScript, FinalizeScript, ReconcileScript;
      ghost var w, n := Snapshot(), fuse;
      match c {
        case Create(description, mode, freeze) => CreateTask(description, mode, freeze);
        case BeginRevision(id, reason, now) => BeginRevision(id, reason, now);
        case InvokeQuery(id, tool, arguments, live, reply, at) => InvokeQuery(id, tool, arguments, live, reply, at);
        case StartAction(id, tool, arguments, live, before, reply, trackedOk, at) =>
          StartAction(id, tool, arguments, live, before, reply, trackedOk, at);
        case StartSession(id, tool, arguments, ownership, live, reply, trackedOk, at) =>
          StartSession(id, tool, arguments, ownership, live, reply, trackedOk, at);
        case ObserveAction(id, inv, response, dropped, at) => ObserveAction(id, inv, response, dropped, at);
        case ObserveSession(id, inv, response, dropped, at) => ObserveSession(id, inv, response, dropped, at);
        case RecordCancel(id, inv, response, at) => RecordCancel(id, inv, response, at);
        case StopSession(id, inv, answer, at) => StopSession(id, inv, answer, at);
        case CancelTask(id, answers, at) => CancelTask(id, answers, at);
        case Finalize(id, captured, after, bundle, verifier, now) =>
          FinalizeTask(id, captured, after, bundle, verifier, now);
        case Reconcile(found, bindingTracked, at) => ReconcileNonterminal(found, bindingTracked, at);
      }
      if Inv(cfg, w) {
        ScriptLegal(cfg, w, c);
        CutInv(cfg, w, Script(cfg, w, c), n);
      }
    }
  }
}
