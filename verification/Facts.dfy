/** What the coordinator's verdicts on executions and replies mean, said in terms of statuses, ownership
    and words alone; and that its own predicates mean just that. */
module Facts {
  import opened Common
  import opened AgentTask
  import opened Protocol

  // ---- Executions ------------------------------------------------------------------------------

  predicate IsOpen(s: ToolStatus)
  {
    s in {ToolStatus.Pending, ToolStatus.Accepted, ToolStatus.Running}
  }

  /** The task must see this execution end: an Action, or a Session of its own. */
  predicate MustEnd(r: Exec)
  {
    r.tool.semantics == Action || (r.tool.semantics == Session && r.ownership == TaskOwned)
  }

  /** Such an execution that is still going on. */
  predicate GoingOn(r: Exec)
  {
    MustEnd(r) && IsOpen(r.status)
  }

  /** The statuses that speak for success, for each kind of execution and owner. */
  function Fulfilling(r: Exec): set<ToolStatus>
  {
    if r.tool.semantics != Session then {ToolStatus.Succeeded}
    else if r.ownership == TaskOwned then {ToolStatus.Succeeded, ToolStatus.Stopped}
    else {ToolStatus.Accepted, ToolStatus.Running, ToolStatus.Succeeded, ToolStatus.Stopped}
  }

  ghost predicate AllFulfilled(records: seq<Exec>)
  {
    forall k :: 0 <= k < |records| ==> records[k].status in Fulfilling(records[k])
  }

  /** Every execution the task must see end was cancelled or stopped. */
  ghost predicate AllCalledOff(records: seq<Exec>)
  {
    forall k :: 0 <= k < |records| && MustEnd(records[k]) ==>
      records[k].status in {ToolStatus.Cancelled, ToolStatus.Stopped}
  }

  ghost predicate SomeMustEnd(records: seq<Exec>)
  {
    exists k :: 0 <= k < |records| && MustEnd(records[k])
  }

  ghost predicate SomeGoesOn(records: seq<Exec>)
  {
    exists k :: 0 <= k < |records| && GoingOn(records[k])
  }

  predicate IsClosed(t: Task)
  {
    t.status in {TaskStatus.Succeeded, TaskStatus.Failed, TaskStatus.Cancelled}
  }

  /** The coordinator's predicates mean this. */
  lemma TaskFacts(t: Task)
    ensures Terminal(t) <==> IsClosed(t)
    ensures OwnedPending(t) <==> SomeGoesOn(Records(t))
    ensures HasOwned(t) <==> SomeMustEnd(Records(t))
    ensures FactsSucceeded(t) <==> AllFulfilled(Records(t))
    ensures CancelStatus(t) == if AllCalledOff(Records(t)) then TaskStatus.Cancelled else TaskStatus.Failed
  {
    hide Records;
    var records := Records(t);
    assert forall k :: 0 <= k < |records| ==> (Owned(records[k]) <==> MustEnd(records[k]));
    assert forall k :: 0 <= k < |records| ==> (ToolTerminal(records[k].status) <==> !IsOpen(records[k].status));
    assert forall k :: 0 <= k < |records| ==> (FactSucceeded(records[k]) <==> records[k].status in Fulfilling(records[k]));
  }

  lemma RecordFacts(r: Exec)
    ensures ToolTerminal(r.status) <==> !IsOpen(r.status)
    ensures Owned(r) <==> MustEnd(r)
    ensures Cancellable(r) <==> GoingOn(r) && r.invocationId.Some?
    ensures Definite(r.status) <==> !IsOpen(r.status) && r.status != Unknown
  {}

  // ---- Replies ---------------------------------------------------------------------------------

  /** Every word the Gateway has for a status. */
  const WORDS: map<string, ToolStatus> :=
    map["dispatching" := ToolStatus.Pending, "accepted" := ToolStatus.Accepted, "running" := ToolStatus.Running,
        "stopping" := ToolStatus.Running, "completed" := ToolStatus.Succeeded, "succeeded" := ToolStatus.Succeeded,
        "failed" := ToolStatus.Failed, "cancelled" := ToolStatus.Cancelled, "canceled" := ToolStatus.Cancelled,
        "stopped" := ToolStatus.Stopped, "unknown" := ToolStatus.Unknown]

  /** The agent's own word for a status. */
  function Name(s: ToolStatus): string
  {
    match s
    case Pending => "pending"
    case Accepted => "accepted"
    case Running => "running"
    case Succeeded => "succeeded"
    case Failed => "failed"
    case Cancelled => "cancelled"
    case Stopped => "stopped"
    case Unknown => "unknown"
  }

  /** The part of a reply that speaks of the execution. */
  function Body(response: Dict): Dict
  {
    match if "data" in response then response["data"] else JNull
    case JObj(fields) => fields
    case _ => response
  }

  function Field(d: Dict, key: string): Json
  {
    if key in d then d[key] else JNull
  }

  /** What Python takes for false. */
  predicate Falsy(j: Json)
  {
    j == JNull || j == JBool(false) || j == JNum(0) || j == JStr("") || j == JArr([]) || j == JObj(map[])
  }

  function Meaning(j: Json): Option<ToolStatus>
  {
    if j.JStr? && Lower(j.s) in WORDS then Some(WORDS[Lower(j.s)]) else None
  }

  /** The status a reply reports: its phase, or its state where it has no phase; failing that, the status
      of a result that is available. */
  function Reported(response: Dict): Option<ToolStatus>
  {
    var body := Body(response);
    var spoken := if Falsy(Field(body, "phase")) then Field(body, "state") else Field(body, "phase");
    if Meaning(spoken).Some? then Meaning(spoken)
    else if Field(body, "status") == JStr("available") && Field(body, "result").JObj?
    then Meaning(Field(Field(body, "result").fields, "status"))
    else None
  }

  lemma WordsMean(word: string)
    ensures Phase(word) == if word in WORDS then Some(WORDS[word]) else None
  {}

  /** The coordinator reads a reply for what it reports, and keeps the status when it reports nothing. */
  lemma StatusIsReported(response: Dict, before: ToolStatus)
    ensures StatusOf(response, before) == Reported(response).GetOr(before)
  {
    hide Phase, WORDS;
    var data := ResponseData(response);
    assert data == Body(response);
    forall word ensures Phase(word) == if word in WORDS then Some(WORDS[word]) else None { WordsMean(word); }
    assert Lower("") == "";
    NoEmptyWord();
  }

  lemma NoEmptyWord()
    ensures "" !in WORDS
  {}

  /** A reply that gives the agent's own word for a status as its phase, in any case, is recorded as that
      status. */
  lemma OwnWordIsTaken(response: Dict, s: ToolStatus, before: ToolStatus)
    requires s != ToolStatus.Pending && Field(Body(response), "phase").JStr?
    requires Lower(Field(Body(response), "phase").s) == Name(s)
    ensures StatusOf(response, before) == s
  {
    StatusIsReported(response, before);
    assert Lower("") == "";
  }

  /** A non-empty text field of what a reply says. */
  function Text(response: Dict, key: string): Option<string>
  {
    match Field(Body(response), key)
    case JStr(s) => if s == "" then None else Some(s)
    case _ => None
  }

  /** The identity an exchange brought to light: in the answer, or in the payload of the refusal. */
  function Revealed(reply: Reply, key: string): Option<string>
  {
    match reply
    case Answered(r) => Text(r, key)
    case Raised(_, Some(payload)) => Text(payload, key)
    case Raised(_, None) => None
  }

  lemma IdentityIsRevealed(reply: Reply, key: string)
    ensures Identity(reply, key) == Revealed(reply, key)
  {}

  // ---- Identifiers -----------------------------------------------------------------------------

  const BLANKS := " \t\n\r"

  lemma {:induction false} LeftBlanks(s: string) returns (a: nat)
    ensures a <= |s| && StripLeft(s) == s[a..] && forall k :: 0 <= k < a ==> s[k] in BLANKS
    ensures a < |s| ==> s[a] !in BLANKS
  {
    if s != "" && Blank(s[0]) {
      var b := LeftBlanks(s[1..]);
      a := b + 1;
      assert forall k :: 0 < k < |s| ==> s[k] == s[1..][k - 1];
    } else {
      a := 0;
    }
  }

  lemma {:induction false} RightBlanks(s: string) returns (b: nat)
    ensures b <= |s| && StripRight(s) == s[..b] && forall k :: b <= k < |s| ==> s[k] in BLANKS
    ensures b > 0 ==> s[b - 1] !in BLANKS
  {
    if s != "" && Blank(s[|s| - 1]) {
      b := RightBlanks(s[..|s| - 1]);
      assert s[..|s| - 1][..b] == s[..b];
      assert forall k :: b <= k < |s| - 1 ==> s[k] == s[..|s| - 1][k];
    } else {
      b := |s|;
      assert s[..b] == s;
    }
  }

  /** Stripping takes the blanks off both ends, all of them and nothing else. */
  lemma BlanksGo(s: string) returns (a: nat, b: nat)
    ensures a <= b <= |s| && Strip(s) == s[a..b]
    ensures forall k :: 0 <= k < a || b <= k < |s| ==> s[k] in BLANKS
    ensures a < b ==> s[a] !in BLANKS && s[b - 1] !in BLANKS
  {
    a := LeftBlanks(s);
    var n := RightBlanks(s[a..]);
    b := a + n;
    assert s[a..][..n] == s[a..b];
    assert forall k :: b <= k < |s| ==> s[k] == s[a..][k - a];
  }

  /** An identifier can be sent exactly when something is left of it after stripping that is neither a dot
      nor two and crosses no directory. */
  lemma UsableExactly(toolId: string)
    ensures PathSafe(toolId) <==> Strip(toolId) !in {"", ".", ".."} && forall c :: c in Strip(toolId) ==> c !in "/\\"
  {
    hide Strip;
  }
}
