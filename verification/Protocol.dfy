/** The coordinator as a protocol. Every operation is a script: the sequence of durable effects
    (store transactions, requests to the Gateway, tracker writes) it performs for given replies
    of the Gateway, the verifier and the trackers. A crash or an abandoned call leaves exactly a
    prefix of that sequence behind. */
module Protocol {
  import opened Common
  import opened AgentTask

  /** Fixed for the life of a process: the replan budget, whether Tool bindings are enforced,
      whether Runtime trackers are attached, and whether a verifier is configured. */
  datatype Config = Config(maxReplans: nat, bound: bool, tracked: bool, verifier: bool)

  /** The closures passed to `AgentTaskStore.update`. */
  datatype Mutation =
    | MAppend(rec: Exec)
    | MFinish(id: nat, status: ToolStatus, invocationId: Option<string>, attemptId: Option<string>,
              response: Option<Dict>, at: int)
    | MAccept(id: nat, invocation: string, attemptId: Option<string>, reply: Dict, at: int)
    | MObserve(id: nat, status: ToolStatus, reply: Dict, at: int)
    | MRespond(id: nat, reply: Dict, at: int)
    | MBefore(ref: Option<string>)
    | MAfter(after: Option<string>, bundle: string)
    | MCancel(pending: bool, responses: seq<(string, Dict)>, at: int)
    | MSetStatus(to: TaskStatus)
    | MVerified(verdict: Verdict, attempt: Attempt, maxReplans: nat, deadline: int)
    | MVerificationError(to: TaskStatus, attempt: Attempt)
    | MBeginRevision(revisionId: nat, reason: string)
    | MFailReplan

  function SetResponses(t: Task, responses: seq<(string, Dict)>, at: int): Task
    decreases |responses|
  {
    if responses == [] then t
    else
      var i := InvocationIndex(Records(t), responses[0].0);
      var t' := if i < |Records(t)|
                then Put(t, Records(t)[i].(response := Some(responses[0].1), updatedAt := at))
                else t;
      SetResponses(t', responses[1..], at)
  }

  function VerifiedStatus(t: Task, verdict: Verdict, maxReplans: nat): TaskStatus
  {
    if t.mode.Audit? then
      if FactsSucceeded(t) then TaskStatus.Succeeded else TaskStatus.Failed
    else if t.mode.Recovery? && verdict.name.ReplanRequired? then
      if |t.revisions| - 1 >= maxReplans then TaskStatus.Failed else AwaitingReplan
    else if verdict.name.Success? then TaskStatus.Succeeded
    else TaskStatus.Failed
  }

  /** The closures that assign fields of one execution record. */
  predicate Rewrites(m: Mutation)
  {
    m.MFinish? || m.MAccept? || m.MObserve? || m.MRespond?
  }

  function Rewritten(r: Exec, m: Mutation): Exec
    requires Rewrites(m)
  {
    match m
    case MFinish(_, status, inv, att, response, at) =>
      r.(status := status, invocationId := Or(inv, r.invocationId), attemptId := Or(att, r.attemptId),
         response := response, updatedAt := at)
    case MAccept(_, inv, att, reply, at) =>
      r.(status := Accepted, invocationId := Some(inv), attemptId := att, response := Some(reply),
         updatedAt := at)
    case MObserve(_, status, reply, at) => r.(status := status, response := Some(reply), updatedAt := at)
    case MRespond(_, reply, at) => r.(response := Some(reply), updatedAt := at)
  }

  /** The effect of one closure on the row it was given. */
  function Mutate(t: Task, m: Mutation): Task
  {
    if Rewrites(m) then
      var i := IndexOf(Records(t), m.id);
      if i == |Records(t)| then t else Put(t, Rewritten(Records(t)[i], m))
    else
    match m
    case MAppend(rec) =>
      var a := ActiveIndex(t.revisions, t.activeRevisionId);
      if a == |t.revisions| then t
      else t.(revisions := t.revisions[a := t.revisions[a].(records := t.revisions[a].records + [rec])])
    case MBefore(ref) => t.(beforeRef := ref)
    case MAfter(after, bundle) => t.(afterRef := after, bundleRef := Some(bundle))
    case MCancel(pending, responses, at) =>
      var t' := t.(cancellationRequested := true,
                   status := if pending || HasOwned(t) then Cancelling else CancelStatus(t));
      SetResponses(t', responses, at)
    case MSetStatus(to) => t.(status := to)
    case MVerified(verdict, attempt, maxReplans, deadline) =>
      var a := ActiveIndex(t.revisions, t.activeRevisionId);
      if a == |t.revisions| then t
      else
        var status := VerifiedStatus(t, verdict, maxReplans);
        var active := t.revisions[a].(verdict := Some(verdict),
                                      attempts := t.revisions[a].attempts + [attempt]);
        t.(verdict := Some(verdict), attempts := t.attempts + [attempt],
           revisions := t.revisions[a := active], status := status,
           replanDeadline := if status.AwaitingReplan? then Some(deadline) else t.replanDeadline)
    case MVerificationError(to, attempt) =>
      var a := ActiveIndex(t.revisions, t.activeRevisionId);
      if a == |t.revisions| then t
      else
        var active := t.revisions[a].(attempts := t.revisions[a].attempts + [attempt]);
        t.(status := to, attempts := t.attempts + [attempt], revisions := t.revisions[a := active])
    case MBeginRevision(revisionId, reason) =>
      var a := ActiveIndex(t.revisions, t.activeRevisionId);
      if a == |t.revisions| then t
      else
        var next := Revision(revisionId, |t.revisions| + 1, reason, BindingId(t), [], None, [], false);
        t.(revisions := t.revisions[a := t.revisions[a].(closed := true)] + [next],
           activeRevisionId := revisionId, status := Executing, verdict := None, replanDeadline := None)
    case MFailReplan => t.(status := TaskStatus.Failed)
  }

  datatype Tracker = Invocations | Sessions | Bindings
  datatype Post = Post(caller: Caller, toolId: string, arguments: string, semantics: Semantics)
  datatype Control = CancelRequest(invocationId: string) | StopRequest(invocationId: string)

  /** Everything that outlives the process: the task store in creation order, the requests the
      Gateway has received, and the three persisted tracker sets. `nextUid` supplies identifiers
      that were never handed out before. */
  datatype World = World(
    tasks: seq<Task>,
    posts: seq<Post>,
    controls: seq<Control>,
    invocations: set<string>,
    sessions: set<string>,
    bindings: set<string>,
    nextUid: nat)

  const EMPTY := World([], [], [], {}, {}, {}, 0)

  datatype Effect =
    | Insert(task: Task)
    | Update(taskId: nat, m: Mutation)
    | Dispatch(post: Post)
    | Ask(control: Control)
    | Track(tracker: Tracker, id: string)
    | Untrack(tracker: Tracker, id: string)

  /** Index of the row with this id, or the number of rows when there is none. */
  function Find(tasks: seq<Task>, id: nat): (i: nat)
    ensures i <= |tasks|
    ensures i < |tasks| ==> tasks[i].id == id
    ensures forall k :: 0 <= k < i ==> tasks[k].id != id
  {
    if tasks == [] then 0 else if tasks[0].id == id then 0 else Find(tasks[1..], id) + 1
  }

  /** `AgentTaskStore.active`: the oldest row that is not terminal. */
  function ActiveTask(tasks: seq<Task>): (i: nat)
    ensures i <= |tasks|
    ensures i < |tasks| ==> !Terminal(tasks[i])
    ensures forall k :: 0 <= k < i ==> Terminal(tasks[k])
  {
    if tasks == [] then 0 else if !Terminal(tasks[0]) then 0 else ActiveTask(tasks[1..]) + 1
  }

  function SetOf(w: World, k: Tracker): set<string>
  {
    match k case Invocations => w.invocations case Sessions => w.sessions case Bindings => w.bindings
  }

  function WithSet(w: World, k: Tracker, s: set<string>): World
  {
    match k
    case Invocations => w.(invocations := s)
    case Sessions => w.(sessions := s)
    case Bindings => w.(bindings := s)
  }

  /** How many fresh identifiers a closure writes into the store. */
  function Drawn(m: Mutation): nat
  {
    if m.MAppend? || m.MBeginRevision? then 1 else 0
  }

  function Apply(w: World, e: Effect): World
  {
    match e
    case Insert(t) => w.(tasks := w.tasks + [t], nextUid := w.nextUid + 2)
    case Update(id, m) =>
      var i := Find(w.tasks, id);
      if i == |w.tasks| then w
      else w.(tasks := w.tasks[i := Mutate(w.tasks[i], m)], nextUid := w.nextUid + Drawn(m))
    case Dispatch(p) => w.(posts := w.posts + [p])
    case Ask(c) => w.(controls := w.controls + [c])
    case Track(k, id) => WithSet(w, k, SetOf(w, k) + {id})
    case Untrack(k, id) => WithSet(w, k, SetOf(w, k) - {id})
  }

  /** The world after the first `n` effects of a script, or after all of them. */
  function Cut(w: World, effects: seq<Effect>, n: nat): World
    decreases |effects|
  {
    if effects == [] || n == 0 then w else Cut(Apply(w, effects[0]), effects[1..], n - 1)
  }

  function Finish(w: World, effects: seq<Effect>): World
  {
    Cut(w, effects, |effects|)
  }

  // ---- What the environment answers --------------------------------------------------------

  /** A Gateway exchange: `sent` says whether the POST left the process at all; a raised error
      may still carry the payload of the Gateway's refusal. */
  datatype Reply =
    | Answered(response: Dict)
    | Raised(sent: bool, payload: Option<Dict>)

  /** Freezing the activated Skill of this turn into a binding may be refused. */
  datatype Freeze = Refused | Frozen(binding: Binding)

  datatype VerifierReply = VerifierFailed(attempt: Attempt) | VerdictGiven(verdict: Verdict, attempt: Attempt)

  /** What recovery meets for one record: its tracker write fails, or the status request
      fails, or the Gateway answers. */
  datatype Recovered = TrackerFailed | StatusFailed | StatusAnswered(response: Dict, dropped: bool)

  datatype Call =
    | Create(description: string, mode: Mode, freeze: Freeze)
    | BeginRevision(taskId: nat, reason: string, now: int)
    | InvokeQuery(taskId: nat, toolId: string, arguments: string, live: bool, reply: Reply, at: int)
    | StartAction(taskId: nat, toolId: string, arguments: string, live: bool, before: Option<string>,
                  reply: Reply, trackedOk: bool, at: int)
    | StartSession(taskId: nat, toolId: string, arguments: string, ownership: Ownership, live: bool,
                   reply: Reply, trackedOk: bool, at: int)
    | ObserveAction(taskId: nat, invocationId: string, response: Dict, dropped: bool, at: int)
    | ObserveSession(taskId: nat, invocationId: string, response: Dict, dropped: bool, at: int)
    | RecordCancel(taskId: nat, invocationId: string, response: Dict, at: int)
    | StopSession(taskId: nat, invocationId: string, answer: Option<Dict>, at: int)
    | CancelTask(taskId: nat, answers: map<string, Dict>, at: int)
    | Finalize(taskId: nat, captured: bool, after: Option<string>, bundle: string,
               verifier: VerifierReply, now: int)
    | Reconcile(found: seq<Recovered>, bindingTracked: bool, at: int)

  /** How long an `awaiting_replan` task may wait; only its sign matters to the protocol. */
  const REPLAN_TIMEOUT := 120

  // ---- Scripts ---------------------------------------------------------------------------

  /** `_schedule_experience`: the binding is released once nothing remote is left open. */
  function Release(cfg: Config, t: Task): seq<Effect>
  {
    if Terminal(t) && t.binding.Some? && cfg.tracked && !HasUnknownRemote(t)
    then [Untrack(Bindings, t.binding.value.id)] else []
  }

  function NewTask(w: World, description: string, mode: Mode, binding: Option<Binding>): Task
  {
    var id := if binding.Some? then Some(binding.value.id) else None;
    Task(w.nextUid, Strip(description), mode, Executing,
         [Revision(w.nextUid + 1, 1, "initial plan", id, [], None, [], false)], w.nextUid + 1,
         binding, None, [], None, None, None, false, None)
  }

  function CreateScript(cfg: Config, w: World, c: Call): seq<Effect>
    requires c.Create?
  {
    if !c.mode.Off? && !cfg.verifier then []
    else if cfg.bound && !c.freeze.Frozen? then []
    else if Strip(c.description) == "" then []
    else
      var binding := if cfg.bound then Some(c.freeze.binding) else None;
      var hold := if binding.Some? && cfg.tracked then [Track(Bindings, binding.value.id)] else [];
      var undo := if binding.Some? && cfg.tracked then [Untrack(Bindings, binding.value.id)] else [];
      if ActiveTask(w.tasks) < |w.tasks| then hold + undo
      else hold + [Insert(NewTask(w, c.description, c.mode, binding))]
  }

  function BeginRevisionScript(cfg: Config, w: World, c: Call): seq<Effect>
    requires c.BeginRevision?
  {
    var i := Find(w.tasks, c.taskId);
    if i == |w.tasks| || !w.tasks[i].status.AwaitingReplan? then []
    else
      var t := w.tasks[i];
      if t.replanDeadline.Some? && c.now >= t.replanDeadline.value then
        [Update(t.id, MFailReplan)] + Release(cfg, Mutate(t, MFailReplan))
      else if |t.revisions| - 1 >= cfg.maxReplans then []
      else if Strip(c.reason) == "" then []
      else [Update(t.id, MBeginRevision(w.nextUid, Strip(c.reason)))]
  }

  /** The digest recorded for a Tool of a coordinator without bindings. */
  function UnboundSha(toolId: string, semantics: Semantics): string
  {
    toolId + (match semantics case Query => "/q" case Action => "/a" case Session => "/s")
  }

  function BoundTool(tools: seq<ToolSpec>, toolId: string): (i: nat)
    ensures i <= |tools|
    ensures i < |tools| ==> tools[i].toolId == toolId
  {
    if tools == [] then 0 else if tools[0].toolId == toolId then 0 else BoundTool(tools[1..], toolId) + 1
  }

  /** `_require_binding_tool`: the digest under which this Tool may be called, if it may.
      `live` says that the Runtime identity, the live ToolSpec and its readiness still match. */
  function AdmittedTool(cfg: Config, t: Task, toolId: string, semantics: Semantics, live: bool): Option<string>
  {
    if !t.status.Executing? then None
    else if t.binding.None? && !cfg.bound then
      if toolId == "" then None else Some(UnboundSha(toolId, semantics))
    else if t.binding.None? || !cfg.bound then None
    else
      var tools := t.binding.value.tools;
      var i := BoundTool(tools, toolId);
      if i < |tools| && tools[i].semantics == semantics && live then Some(tools[i].sha) else None
  }

  /** The dispatch intent; the stored identifier is the stripped one. */
  function Intent(t: Task, id: nat, toolId: string, semantics: Semantics, sha: string,
                  ownership: Ownership, arguments: string, at: int): Exec
  {
    Exec(id, Caller(t.id, t.activeRevisionId, id), ToolSpec(Strip(toolId), semantics, sha), BindingId(t),
         ownership, arguments, Pending, None, None, None, at)
  }

  function QueryScript(cfg: Config, w: World, c: Call): seq<Effect>
    requires c.InvokeQuery?
  {
    var i := Find(w.tasks, c.taskId);
    if i == |w.tasks| then []
    else
      var t := w.tasks[i];
      var sha := AdmittedTool(cfg, t, c.toolId, Query, c.live);
      if sha.None? || !PathSafe(c.toolId) then []
      else
        var rec := Intent(t, w.nextUid, c.toolId, Query, sha.value, TaskOwned, c.arguments, c.at);
        [Update(t.id, MAppend(rec))]
        + Sent(c.reply, Post(rec.caller, c.toolId, c.arguments, Query))
        + [Update(t.id, match c.reply
                        case Answered(r) => MFinish(rec.id, ToolStatus.Succeeded, None, None, Some(r), c.at)
                        case Raised(_, _) => MFinish(rec.id, Unknown, None, None, None, c.at))]
  }

  function Sent(reply: Reply, p: Post): seq<Effect>
  {
    if reply.Answered? || reply.sent then [Dispatch(p)] else []
  }

  /** The identity a reply gives an admitted invocation, or that an error payload still reveals. */
  function Identity(reply: Reply, key: string): Option<string>
  {
    match reply
    case Answered(r) => StrField(ResponseData(r), key)
    case Raised(_, payload) => if payload.Some? then StrField(ResponseData(payload.value), key) else None
  }

  /** An Action must come back with both identities, a Session with the first. */
  predicate Admitted(reply: Reply, semantics: Semantics)
  {
    reply.Answered? && Identity(reply, "invocation_id").Some?
    && (semantics.Session? || Identity(reply, "attempt_id").Some?)
  }

  const FAILURE: Dict := map["ok" := JBool(false)]

  /** `_track_remote_identity` adds a warning to the stored response when the tracker fails. */
  function Warned(response: Dict): Dict
  {
    var warnings := if "paos_warnings" in response && response["paos_warnings"].JArr?
               then response["paos_warnings"].items else [];
    response["paos_warnings" := JArr(warnings + [JStr("local_tracking")])]
  }

  function TrackerOf(semantics: Semantics): Tracker
  {
    if semantics.Session? then Sessions else Invocations
  }

  /** From the committed intent to the recorded outcome of one remote start. */
  function RemoteScript(cfg: Config, taskId: nat, rec: Exec, toolId: string, reply: Reply, trackedOk: bool, at: int)
    : seq<Effect>
  {
    var k := rec.tool.semantics;
    var inv := Identity(reply, "invocation_id");
    var att := Identity(reply, "attempt_id");
    var outcome := if Admitted(reply, k)
                   then MAccept(rec.id, inv.value, att, reply.response, at)
                   else MFinish(rec.id, Unknown, inv, att, None, at);
    var response := if Admitted(reply, k) then reply.response else FAILURE;
    var track := if inv.None? || !cfg.tracked then []
                 else if trackedOk then [Track(TrackerOf(k), inv.value)]
                 else [Update(taskId, MRespond(rec.id, Warned(response), at))];
    Sent(reply, Post(rec.caller, toolId, rec.arguments, k)) + [Update(taskId, outcome)] + track
  }

  /** The retry guard: this very Action is recorded with an unknown remote state. */
  predicate SameUnknown(t: Task, toolId: string, arguments: string)
  {
    exists i :: 0 <= i < |Records(t)|
      && Records(t)[i].tool.semantics.Action? && Records(t)[i].tool.toolId == toolId
      && Records(t)[i].arguments == arguments && Records(t)[i].status.Unknown?
  }

  function ActionScript(cfg: Config, w: World, c: Call): seq<Effect>
    requires c.StartAction?
  {
    var i := Find(w.tasks, c.taskId);
    if i == |w.tasks| || !w.tasks[i].status.Executing? || SameUnknown(w.tasks[i], c.toolId, c.arguments) then []
    else
      var t := w.tasks[i];
      var sha := AdmittedTool(cfg, t, c.toolId, Action, c.live);
      if sha.None? then []
      else
        var before := if t.beforeRef.None? then [Update(t.id, MBefore(c.before))] else [];
        if !PathSafe(c.toolId) then before
        else
          var rec := Intent(t, w.nextUid, c.toolId, Action, sha.value, TaskOwned, c.arguments, c.at);
          before + [Update(t.id, MAppend(rec))]
          + RemoteScript(cfg, t.id, rec, c.toolId, c.reply, c.trackedOk, c.at)
  }

  function SessionScript(cfg: Config, w: World, c: Call): seq<Effect>
    requires c.StartSession?
  {
    var i := Find(w.tasks, c.taskId);
    if i == |w.tasks| || c.ownership.RuntimeOwned? then []
    else
      var t := w.tasks[i];
      var sha := AdmittedTool(cfg, t, c.toolId, Session, c.live);
      if sha.None? || !PathSafe(c.toolId) then []
      else
        var rec := Intent(t, w.nextUid, c.toolId, Session, sha.value, c.ownership, c.arguments, c.at);
        [Update(t.id, MAppend(rec))] + RemoteScript(cfg, t.id, rec, c.toolId, c.reply, c.trackedOk, c.at)
  }

  /** `observe_action` and `observe_session`. */
  function ObserveScript(cfg: Config, w: World, taskId: nat, invocationId: string, semantics: Semantics,
                         response: Dict, dropped: bool, at: int): seq<Effect>
  {
    var i := Find(w.tasks, taskId);
    if i == |w.tasks| then []
    else
      var t := w.tasks[i];
      var k := OwnedIndex(Records(t), invocationId, semantics);
      if k == |Records(t)| || (semantics.Action? && Terminal(t)) then []
      else
        var status := StatusOf(response, Records(t)[k].status);
        [Update(t.id, MObserve(Records(t)[k].id, status, response, at))]
        + (if Definite(status) && cfg.tracked && dropped
           then [Untrack(TrackerOf(semantics), invocationId)] else [])
  }

  function RecordCancelScript(w: World, c: Call): seq<Effect>
    requires c.RecordCancel?
  {
    var i := Find(w.tasks, c.taskId);
    if i == |w.tasks| then []
    else
      var t := w.tasks[i];
      var k := OwnedIndex(Records(t), c.invocationId, Action);
      if k == |Records(t)| || Terminal(t) then []
      else [Update(t.id, MRespond(Records(t)[k].id, c.response, c.at))]
  }

  function StopSessionScript(w: World, c: Call): seq<Effect>
    requires c.StopSession?
  {
    var i := Find(w.tasks, c.taskId);
    if i == |w.tasks| then []
    else
      var t := w.tasks[i];
      var k := OwnedIndex(Records(t), c.invocationId, Session);
      if k == |Records(t)| || !Records(t)[k].ownership.TaskOwned? then []
      else
        [Ask(StopRequest(c.invocationId))]
        + (if c.answer.Some? then [Update(t.id, MRespond(Records(t)[k].id, c.answer.value, c.at))] else [])
  }

  predicate Cancellable(r: Exec)
  {
    Owned(r) && !ToolTerminal(r.status) && r.invocationId.Some?
  }

  /** One control request for every owned execution that is still open and has an identity. */
  function CancelRequests(records: seq<Exec>): seq<Effect>
  {
    if records == [] then []
    else
      var r := records[0];
      (if !Cancellable(r) then []
       else if r.tool.semantics.Session? then [Ask(StopRequest(r.invocationId.value))]
       else [Ask(CancelRequest(r.invocationId.value))])
      + CancelRequests(records[1..])
  }

  function CancelResponses(records: seq<Exec>, answers: map<string, Dict>): seq<(string, Dict)>
  {
    if records == [] then []
    else
      var r := records[0];
      (if !Cancellable(r) then []
       else [(r.invocationId.value,
              if r.invocationId.value in answers then answers[r.invocationId.value] else FAILURE)])
      + CancelResponses(records[1..], answers)
  }

  function CancelMutation(t: Task, answers: map<string, Dict>, at: int): Mutation
  {
    MCancel(CancelResponses(Records(t), answers) != [], CancelResponses(Records(t), answers), at)
  }

  function CancelScript(cfg: Config, w: World, c: Call): seq<Effect>
    requires c.CancelTask?
  {
    var i := Find(w.tasks, c.taskId);
    if i == |w.tasks| || Terminal(w.tasks[i]) then []
    else
      var t := w.tasks[i];
      var m := CancelMutation(t, c.answers, c.at);
      CancelRequests(Records(t)) + [Update(t.id, m)] + Release(cfg, Mutate(t, m))
  }

  /** The closing transaction of `finalize_task`, once the after evidence is recorded. */
  function Closing(cfg: Config, t: Task, verifier: VerifierReply, now: int): Mutation
  {
    if t.cancellationRequested then MSetStatus(CancelStatus(t))
    else if t.mode.Off? then
      MSetStatus(if FactsSucceeded(t) then TaskStatus.Succeeded else TaskStatus.Failed)
    else if !cfg.verifier || verifier.VerifierFailed? then
      MVerificationError(if t.mode.Audit? && FactsSucceeded(t) then TaskStatus.Succeeded else TaskStatus.Failed,
                         Attempt(verifier.attempt.id, None))
    else MVerified(verifier.verdict, verifier.attempt, cfg.maxReplans, now + REPLAN_TIMEOUT)
  }

  function FinalizeScript(cfg: Config, w: World, c: Call): seq<Effect>
    requires c.Finalize?
  {
    var i := Find(w.tasks, c.taskId);
    if i == |w.tasks| || Terminal(w.tasks[i]) || OwnedPending(w.tasks[i]) || Records(w.tasks[i]) == []
       || !c.captured then []
    else
      var t := w.tasks[i];
      var t1 := Mutate(t, MAfter(c.after, c.bundle));
      var m := Closing(cfg, t1, c.verifier, c.now);
      [Update(t.id, MAfter(c.after, c.bundle)), Update(t.id, m)] + Release(cfg, Mutate(t1, m))
  }

  function RecoverKnownScript(cfg: Config, w: World, taskId: nat, r: Exec, answer: Recovered, at: int): seq<Effect>
    requires r.invocationId.Some?
  {
    if answer.StatusAnswered?
    then ObserveScript(cfg, w, taskId, r.invocationId.value, r.tool.semantics, answer.response, answer.dropped, at)
    else [Update(taskId, MFinish(r.id, Unknown, r.invocationId, r.attemptId, None, at))]
  }

  /** What recovery does for one of the records it found at its start. */
  function RecoverOne(cfg: Config, w: World, taskId: nat, r: Exec, answer: Recovered, at: int): seq<Effect>
  {
    if ToolTerminal(r.status) || r.tool.semantics.Query? then []
    else if r.invocationId.None? then [Update(taskId, MFinish(r.id, Unknown, None, None, None, at))]
    else if cfg.tracked && answer.TrackerFailed? then []
    else
      (if cfg.tracked then [Track(TrackerOf(r.tool.semantics), r.invocationId.value)] else [])
      + RecoverKnownScript(cfg, w, taskId, r, answer, at)
  }

  /** A tracker write that raises ends recovery at this record. */
  predicate RecoveryAborts(cfg: Config, w: World, taskId: nat, r: Exec, answer: Recovered)
  {
    && cfg.tracked && !ToolTerminal(r.status) && !r.tool.semantics.Query? && r.invocationId.Some?
    && (|| answer.TrackerFailed?
        || (answer.StatusAnswered? && !answer.dropped
            && DropsIdentity(w, taskId, r.invocationId.value, r.tool.semantics, answer.response)))
  }

  predicate DropsIdentity(w: World, taskId: nat, invocationId: string, semantics: Semantics, response: Dict)
  {
    var i := Find(w.tasks, taskId);
    i < |w.tasks|
    && var k := OwnedIndex(Records(w.tasks[i]), invocationId, semantics);
       && k < |Records(w.tasks[i])| && !(semantics.Action? && Terminal(w.tasks[i]))
       && Definite(StatusOf(response, Records(w.tasks[i])[k].status))
  }

  /** Status answers are consumed in order; a missing one stands for a failed request. */
  function Answer(answers: seq<Recovered>): Recovered
  {
    if answers == [] then StatusFailed else answers[0]
  }

  function Rest<T>(s: seq<T>): seq<T>
  {
    if s == [] then [] else s[1..]
  }

  function RecoverFrom(cfg: Config, w: World, taskId: nat, records: seq<Exec>, answers: seq<Recovered>, at: int)
    : seq<Effect>
    decreases |records|
  {
    if records == [] then []
    else
      var head := RecoverOne(cfg, w, taskId, records[0], Answer(answers), at);
      if RecoveryAborts(cfg, w, taskId, records[0], Answer(answers)) then head
      else head + RecoverFrom(cfg, Finish(w, head), taskId, records[1..], Rest(answers), at)
  }

  /** Recovery reaches its last record. */
  predicate RecoversFrom(cfg: Config, w: World, taskId: nat, records: seq<Exec>, answers: seq<Recovered>, at: int)
    decreases |records|
  {
    records == []
    || (!RecoveryAborts(cfg, w, taskId, records[0], Answer(answers))
        && RecoversFrom(cfg, Finish(w, RecoverOne(cfg, w, taskId, records[0], Answer(answers), at)),
                        taskId, records[1..], Rest(answers), at))
  }

  /** The Skill binding recovery takes hold of before it looks at any record. */
  function Hold(cfg: Config, t: Task): seq<Effect>
  {
    if t.binding.Some? && cfg.tracked then [Track(Bindings, t.binding.value.id)] else []
  }

  function ReconcileScript(cfg: Config, w: World, c: Call): seq<Effect>
    requires c.Reconcile?
  {
    var i := ActiveTask(w.tasks);
    if i == |w.tasks| then []
    else
      var t := w.tasks[i];
      if Hold(cfg, t) != [] && !c.bindingTracked then []
      else Hold(cfg, t) + RecoverFrom(cfg, Finish(w, Hold(cfg, t)), t.id, Records(t), c.found, c.at)
  }

  /** Recovery runs to its end: no tracker write raises on the way. */
  predicate Recovers(cfg: Config, w: World, c: Call)
  {
    c.Reconcile?
    && var i := ActiveTask(w.tasks);
       i == |w.tasks|
       || var t := w.tasks[i];
          (Hold(cfg, t) == [] || c.bindingTracked)
          && RecoversFrom(cfg, Finish(w, Hold(cfg, t)), t.id, Records(t), c.found, c.at)
  }

  /** All durable effects of one call, in order. */
  function Script(cfg: Config, w: World, c: Call): seq<Effect>
  {
    match c
    case Create(_, _, _) => CreateScript(cfg, w, c)
    case BeginRevision(_, _, _) => BeginRevisionScript(cfg, w, c)
    case InvokeQuery(_, _, _, _, _, _) => QueryScript(cfg, w, c)
    case StartAction(_, _, _, _, _, _, _, _) => ActionScript(cfg, w, c)
    case StartSession(_, _, _, _, _, _, _, _) => SessionScript(cfg, w, c)
    case ObserveAction(id, inv, r, dropped, at) => ObserveScript(cfg, w, id, inv, Action, r, dropped, at)
    case ObserveSession(id, inv, r, dropped, at) => ObserveScript(cfg, w, id, inv, Session, r, dropped, at)
    case RecordCancel(_, _, _, _) => RecordCancelScript(w, c)
    case StopSession(_, _, _, _) => StopSessionScript(w, c)
    case CancelTask(_, _, _) => CancelScript(cfg, w, c)
    case Finalize(_, _, _, _, _, _) => FinalizeScript(cfg, w, c)
    case Reconcile(_, _, _) => ReconcileScript(cfg, w, c)
  }
}
