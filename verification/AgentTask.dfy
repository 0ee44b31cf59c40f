/** The persisted AgentTask aggregate: one user goal, its append-only plan revisions and the
    Tool execution records inside them. Rows of the task store are JSON documents that every
    operation decodes afresh, so they are values here. */
module AgentTask {
  import opened Common

  datatype TaskStatus = Executing | Cancelling | AwaitingReplan | Succeeded | Failed | Cancelled

  datatype ToolStatus =
    Pending | Accepted | Running | Succeeded | Failed | Cancelled | Stopped | Unknown

  datatype Semantics = Query | Action | Session
  datatype Ownership = TaskOwned | RuntimeOwned | Shared
  datatype Mode = Off | Audit | Enforce | Recovery

  datatype VerdictName = Success | Failure | ReplanRequired | Inconclusive
  datatype Criterion = Criterion(text: string, evidence: seq<string>)
  datatype Verdict = Verdict(name: VerdictName, criteria: seq<Criterion>, evidence: seq<string>)

  /** One semantic verification; `verdict` is absent when the verifier failed. */
  datatype Attempt = Attempt(id: string, verdict: Option<VerdictName>)

  datatype ToolSpec = ToolSpec(toolId: string, semantics: Semantics, sha: string)
  datatype Binding = Binding(id: string, tools: seq<ToolSpec>)

  /** `paos:<task>:<revision>:<record>`, the identity sent with a dispatch. */
  datatype Caller = Caller(taskId: nat, revisionId: nat, recordId: nat)

  datatype Exec = Exec(
    id: nat,
    caller: Caller,
    tool: ToolSpec,
    bindingId: Option<string>,
    ownership: Ownership,
    arguments: string,
    status: ToolStatus,
    invocationId: Option<string>,
    attemptId: Option<string>,
    response: Option<Dict>,
    updatedAt: int)

  datatype Revision = Revision(
    id: nat,
    number: nat,
    reason: string,
    bindingId: Option<string>,
    records: seq<Exec>,
    verdict: Option<Verdict>,
    attempts: seq<Attempt>,
    closed: bool)

  datatype Task = Task(
    id: nat,
    description: string,
    mode: Mode,
    status: TaskStatus,
    revisions: seq<Revision>,
    activeRevisionId: nat,
    binding: Option<Binding>,
    verdict: Option<Verdict>,
    attempts: seq<Attempt>,
    beforeRef: Option<string>,
    afterRef: Option<string>,
    bundleRef: Option<string>,
    cancellationRequested: bool,
    replanDeadline: Option<int>)

  predicate Terminal(t: Task)
  {
    t.status.Succeeded? || t.status.Failed? || t.status.Cancelled?
  }

  predicate ToolTerminal(s: ToolStatus)
  {
    s.Succeeded? || s.Failed? || s.Cancelled? || s.Stopped? || s.Unknown?
  }

  /** A terminal Tool status other than `unknown`: the Gateway has proved the end. */
  predicate Definite(s: ToolStatus)
  {
    ToolTerminal(s) && !s.Unknown?
  }

  function Flatten(revisions: seq<Revision>): seq<Exec>
  {
    if revisions == [] then [] else revisions[0].records + Flatten(revisions[1..])
  }

  /** `execution_records`: the records of every revision, oldest first. */
  function Records(t: Task): seq<Exec>
  {
    Flatten(t.revisions)
  }

  function BindingId(t: Task): Option<string>
  {
    if t.binding.Some? then Some(t.binding.value.id) else None
  }

  /** Index of the first record with the given id, or the length when there is none. */
  function IndexOf(records: seq<Exec>, id: nat): (i: nat)
    ensures i <= |records|
    ensures i < |records| ==> records[i].id == id
    ensures forall k :: 0 <= k < i ==> records[k].id != id
  {
    if records == [] then 0
    else if records[0].id == id then 0
    else IndexOf(records[1..], id) + 1
  }

  /** `_owned_execution`: the first record with this remote identity and these semantics. */
  function OwnedIndex(records: seq<Exec>, invocationId: string, semantics: Semantics): (i: nat)
    ensures i <= |records|
    ensures i < |records| ==>
              records[i].invocationId == Some(invocationId) && records[i].tool.semantics == semantics
    ensures forall k :: 0 <= k < i ==>
              !(records[k].invocationId == Some(invocationId) && records[k].tool.semantics == semantics)
  {
    if records == [] then 0
    else if records[0].invocationId == Some(invocationId) && records[0].tool.semantics == semantics then 0
    else OwnedIndex(records[1..], invocationId, semantics) + 1
  }

  function InvocationIndex(records: seq<Exec>, invocationId: string): (i: nat)
    ensures i <= |records|
    ensures i < |records| ==> records[i].invocationId == Some(invocationId)
  {
    if records == [] then 0
    else if records[0].invocationId == Some(invocationId) then 0
    else InvocationIndex(records[1..], invocationId) + 1
  }

  /** Writes `rec` over the record that `_task_execution` finds for its id. */
  function PutIn(revisions: seq<Revision>, rec: Exec): (r: seq<Revision>)
    ensures |r| == |revisions|
  {
    if revisions == [] then []
    else
      var i := IndexOf(revisions[0].records, rec.id);
      if i < |revisions[0].records| then
        [revisions[0].(records := revisions[0].records[i := rec])] + revisions[1..]
      else
        [revisions[0]] + PutIn(revisions[1..], rec)
  }

  function Put(t: Task, rec: Exec): Task
  {
    t.(revisions := PutIn(t.revisions, rec))
  }

  /** `active_revision`: index of the first revision with the active id. */
  function ActiveIndex(revisions: seq<Revision>, id: nat): (i: nat)
    ensures i <= |revisions|
    ensures i < |revisions| ==> revisions[i].id == id
    ensures forall k :: 0 <= k < i ==> revisions[k].id != id
  {
    if revisions == [] then 0
    else if revisions[0].id == id then 0
    else ActiveIndex(revisions[1..], id) + 1
  }

  /** A record whose remote counterpart this task must see ended. */
  predicate Owned(r: Exec)
  {
    r.tool.semantics.Action? || (r.tool.semantics.Session? && r.ownership.TaskOwned?)
  }

  predicate HasOwned(t: Task)
  {
    exists i :: 0 <= i < |Records(t)| && Owned(Records(t)[i])
  }

  predicate OwnedPending(t: Task)
  {
    exists i :: 0 <= i < |Records(t)| && Owned(Records(t)[i]) && !ToolTerminal(Records(t)[i].status)
  }

  predicate HasUnknownRemote(t: Task)
  {
    exists i :: 0 <= i < |Records(t)|
      && !Records(t)[i].tool.semantics.Query? && Records(t)[i].status.Unknown?
  }

  /** `_cancel_terminal_status`. */
  function CancelStatus(t: Task): TaskStatus
  {
    if forall i :: 0 <= i < |Records(t)| && Owned(Records(t)[i]) ==>
         Records(t)[i].status.Cancelled? || Records(t)[i].status.Stopped?
    then TaskStatus.Cancelled
    else TaskStatus.Failed
  }

  predicate FactSucceeded(r: Exec)
  {
    || r.status.Succeeded?
    || (r.tool.semantics.Session?
        && (|| (r.ownership.TaskOwned? && r.status.Stopped?)
            || (!r.ownership.TaskOwned?
                && (r.status.Accepted? || r.status.Running? || r.status.Stopped?))))
  }

  /** `_execution_facts_succeeded`. */
  predicate FactsSucceeded(t: Task)
  {
    forall i :: 0 <= i < |Records(t)| ==> FactSucceeded(Records(t)[i])
  }

  /** A task admits only a non-blank, path-safe Tool identifier. */
  predicate PathSafe(s: string)
  {
    var v := Strip(s);
    v != "" && v != "." && v != ".." && '/' !in v && '\\' !in v
  }

  predicate Blank(c: char) { c == ' ' || c == '\t' || c == '\n' || c == '\r' }

  function StripLeft(s: string): string
  {
    if s != "" && Blank(s[0]) then StripLeft(s[1..]) else s
  }

  function StripRight(s: string): string
  {
    if s != "" && Blank(s[|s| - 1]) then StripRight(s[..|s| - 1]) else s
  }

  function Strip(s: string): string
  {
    StripRight(StripLeft(s))
  }

  lemma {:induction false} StripLeftDone(s: string)
    ensures StripLeft(s) == "" || !Blank(StripLeft(s)[0])
  {
    if s != "" && Blank(s[0]) { StripLeftDone(s[1..]); }
  }

  lemma {:induction false} StripRightDone(s: string)
    ensures StripRight(s) == "" || !Blank(StripRight(s)[|StripRight(s)| - 1])
    ensures s != "" && !Blank(s[0]) ==> StripRight(s) != "" && StripRight(s)[0] == s[0]
  {
    if s != "" && Blank(s[|s| - 1]) { StripRightDone(s[..|s| - 1]); }
  }

  /** Stripping twice is stripping once. */
  lemma StripIdempotent(s: string)
    ensures Strip(Strip(s)) == Strip(s)
  {
    StripLeftDone(s);
    StripRightDone(StripLeft(s));
  }

  // ---- Gateway replies -------------------------------------------------------------------

  /** `_response_data`: the nested `data` object when there is one, else the reply itself. */
  function ResponseData(response: Dict): Dict
  {
    if "data" in response && response["data"].JObj? then response["data"].fields else response
  }

  predicate Truthy(j: Json)
  {
    match j
    case JNull => false
    case JBool(b) => b
    case JNum(n) => n != 0
    case JStr(s) => s != ""
    case JArr(items) => items != []
    case JObj(fields) => fields != map[]
  }

  /** The Gateway phases the agent understands. */
  function Phase(name: string): Option<ToolStatus>
  {
    match name
    case "dispatching" => Some(Pending)
    case "accepted" => Some(Accepted)
    case "running" => Some(Running)
    case "stopping" => Some(Running)
    case "completed" => Some(ToolStatus.Succeeded)
    case "succeeded" => Some(ToolStatus.Succeeded)
    case "failed" => Some(ToolStatus.Failed)
    case "cancelled" => Some(ToolStatus.Cancelled)
    case "canceled" => Some(ToolStatus.Cancelled)
    case "stopped" => Some(Stopped)
    case "unknown" => Some(Unknown)
    case _ => None
  }

  function PhaseField(data: Dict): Json
  {
    if "phase" in data && Truthy(data["phase"]) then data["phase"]
    else if "state" in data then data["state"] else JNull
  }

  /** The status of an available result object, if the reply carries one. */
  function ResultStatus(data: Dict): Option<string>
  {
    if "status" in data && data["status"] == JStr("available")
       && "result" in data && data["result"].JObj?
       && "status" in data["result"].fields && data["result"].fields["status"].JStr?
    then Some(data["result"].fields["status"].s)
    else None
  }

  /** `_tool_status`: what a reply says about an execution, or `fallback` when it says nothing. */
  function StatusOf(response: Dict, fallback: ToolStatus): ToolStatus
  {
    var data := ResponseData(response);
    var phase := PhaseField(data);
    if phase.JStr? && Phase(Lower(phase.s)).Some? then Phase(Lower(phase.s)).value
    else
      var result := ResultStatus(data);
      if result.Some? && result.value != "" && Phase(Lower(result.value)).Some?
      then Phase(Lower(result.value)).value
      else fallback
  }
}
