/** Switching the active Skill runtime, with compensation when the new one fails. Every call into
    the manager may fail; what a failure leaves behind is the manager's contract: a start that
    raises leaves its target stopped, a stop that raises changes nothing. */
module RuntimeSwitch {
  import opened Common

  datatype Instance = Instance(profile: string, id: nat)

  /** One runtime selected for the agent, with the client that talks to it. */
  datatype Active = Active(skill: string, profile: string, instanceId: nat, url: string, client: nat)

  /** `status` may raise, report a runtime that is not ready, or a ready one. */
  datatype Readiness = StatusRaised | NotReady | Ready

  /** How each call of one switch turns out. */
  datatype Faults = Faults(
    stopCurrent: bool, start: bool, ready: Readiness, cleanup: bool,
    restart: bool, restored: Readiness, stopOld: bool, stopNew: bool)

  /** Running processes, the registry's selection, and the clients it replaced. */
  datatype Machine = Machine(running: map<string, Instance>, active: Option<Active>, retired: seq<nat>, stamp: nat)

  datatype Request = Request(busy: bool, skill: string, profile: string, faults: Faults)

  // ---- Specification -------------------------------------------------------------------------

  function Started(m: Machine, skill: string, profile: string, ok: bool): Machine
  {
    if ok then m.(running := m.running[skill := Instance(profile, m.stamp)], stamp := m.stamp + 1)
    else m.(running := m.running - {skill})
  }

  function StoppedIf(m: Machine, skill: string, ok: bool): Machine
  {
    if ok then m.(running := m.running - {skill}) else m
  }

  predicate ReportsReady(m: Machine, skill: string, answer: Readiness)
  {
    answer.Ready? && skill in m.running
  }

  /** `ActiveRuntimeRegistry.replace`: a replaced client is kept for closing. */
  function Replaced(m: Machine, active: Option<Active>): Machine
  {
    var dropped := m.active.Some? && (active.None? || m.active.value.client != active.value.client);
    m.(active := active, retired := m.retired + if dropped then [m.active.value.client] else [])
  }

  function Published(m: Machine, skill: string, url: string): Machine
    requires skill in m.running
  {
    Replaced(m, Some(Active(skill, m.running[skill].profile, m.running[skill].id, url, m.stamp))).(stamp := m.stamp + 1)
  }

  predicate Selected(m: Machine, r: Request)
  {
    m.active.Some? && m.active.value.skill == r.skill && m.active.value.profile == r.profile
  }

  predicate StopFirst(m: Machine, r: Request, urls: map<string, string>)
    requires r.skill in urls
  {
    m.active.Some? && (m.active.value.skill == r.skill || m.active.value.url == urls[r.skill])
  }

  /** The target was started, reported not ready, and was told to stop; or it never started. */
  function TargetFailed(m: Machine, r: Request): Machine
  {
    var m1 := Started(m, r.skill, r.profile, r.faults.start);
    if r.faults.start then StoppedIf(m1, r.skill, r.faults.cleanup) else m1
  }

  predicate TargetFails(m: Machine, r: Request)
  {
    !r.faults.start || !ReportsReady(Started(m, r.skill, r.profile, true), r.skill, r.faults.ready)
  }

  /** The runtime that had to make room is started again and published, if it recovers. */
  function RolledBack(m: Machine, old': Active, urls: map<string, string>, f: Faults): Machine
  {
    var m1 := Started(m, old'.skill, old'.profile, f.restart);
    if f.restart && old'.skill in urls && ReportsReady(m1, old'.skill, f.restored)
    then Published(m1, old'.skill, urls[old'.skill])
    else Replaced(m1, None)
  }

  /** What `switch` leaves behind, and whether it returned. */
  function Switched(m: Machine, r: Request, urls: map<string, string>): (Machine, bool)
  {
    var f := r.faults;
    if r.busy || r.skill !in urls then (m, false)
    else if Selected(m, r) then (m, true)
    else if StopFirst(m, r, urls) then
      if !f.stopCurrent then (m, false)
      else
        var m1 := StoppedIf(m, m.active.value.skill, true);
        if TargetFails(m1, r) then (RolledBack(TargetFailed(m1, r), m.active.value, urls, f), false)
        else (Published(Started(m1, r.skill, r.profile, true), r.skill, urls[r.skill]), true)
    else if TargetFails(m, r) then (TargetFailed(m, r), false)
    else
      var m1 := Started(m, r.skill, r.profile, true);
      if m.active.None? then (Published(m1, r.skill, urls[r.skill]), true)
      else if !f.stopOld then (StoppedIf(m1, r.skill, f.stopNew), false)
      else
        var m2 := StoppedIf(m1, m.active.value.skill, true);
        (Published(m2, r.skill, urls[r.skill]), true)
  }

  // ---- The controller ------------------------------------------------------------------------

  class RuntimeManager {
    var running: map<string, Instance>
    var stamp: nat

    constructor (running: map<string, Instance>, stamp: nat)
      ensures this.running == running && this.stamp == stamp
    {
      this.running := running;
      this.stamp := stamp;
    }

    method Start(skill: string, profile: string, ok: bool)
      modifies this
      ensures running == if ok then old(running)[skill := Instance(profile, old(stamp))] else old(running) - {skill}
      ensures stamp == if ok then old(stamp) + 1 else old(stamp)
    {
      if ok {
        running := running[skill := Instance(profile, stamp)];
        stamp := stamp + 1;
      } else {
        running := running - {skill};
      }
    }

    method Stop(skill: string, ok: bool)
      modifies this
      ensures running == (if ok then old(running) - {skill} else old(running)) && stamp == old(stamp)
    {
      if ok { running := running - {skill}; }
    }

    method Status(skill: string, answer: Readiness) returns (state: Option<Instance>)
      ensures state == if answer.Ready? && skill in running then Some(running[skill]) else None
    {
      state := if answer.Ready? && skill in running then Some(running[skill]) else None;
    }
  }

  class ActiveRuntimeRegistry {
    var active: Option<Active>
    var retired: seq<nat>

    constructor (active: Option<Active>)
      ensures this.active == active && retired == []
    {
      this.active := active;
      retired := [];
    }

    method Replace(next: Option<Active>)
      modifies this
      ensures active == next
      ensures retired == old(retired)
                         + if old(active).Some? && (next.None? || old(active).value.client != next.value.client)
                           then [old(active).value.client] else []
    {
      if active.Some? && (next.None? || active.value.client != next.value.client) {
        retired := retired + [active.value.client];
      }
      active := next;
    }

    /** Every client that is active or was replaced, each once; the replaced ones are handed over. */
    method ClientsForClose() returns (clients: seq<nat>)
      modifies this
      ensures Distinct(clients) && retired == [] && active == old(active)
      ensures forall c :: c in clients <==>
                c in old(retired) || (active.Some? && c == active.value.client)
    {
      var all := retired + if active.Some? then [active.value.client] else [];
      retired := [];
      clients := [];
      var i := 0;
      while i < |all|
        invariant i <= |all| && Distinct(clients) && forall c :: c in clients <==> c in all[..i]
      {
        assert all[..i + 1] == all[..i] + [all[i]];
        if all[i] !in clients { clients := clients + [all[i]]; }
        i := i + 1;
      }
      assert all[..i] == all;
    }
  }

  class SkillRuntimeController {
    const registry: ActiveRuntimeRegistry
    const manager: RuntimeManager
    const urls: map<string, string>

    constructor (registry: ActiveRuntimeRegistry, manager: RuntimeManager, urls: map<string, string>)
      ensures this.registry == registry && this.manager == manager && this.urls == urls
    {
      this.registry, this.manager, this.urls := registry, manager, urls;
    }

    ghost function View(): Machine
      reads registry, manager
    {
      Machine(manager.running, registry.active, registry.retired, manager.stamp)
    }

    method Publish(skill: string, url: string, state: Instance)
      requires skill in manager.running && manager.running[skill] == state
      modifies registry, manager`stamp
      ensures View() == Published(old(View()), skill, url)
    {
      registry.Replace(Some(Active(skill, state.profile, state.id, url, manager.stamp)));
      manager.stamp := manager.stamp + 1;
    }

    /** Starts the previous runtime again; whatever goes wrong, the registry never keeps a runtime
        that was not seen ready. */
    method Rollback(previous: Active, f: Faults)
      modifies registry, manager
      ensures View() == RolledBack(old(View()), previous, urls, f)
    {
      manager.Start(previous.skill, previous.profile, f.restart);
      if f.restart && previous.skill in urls {
        var report := manager.Status(previous.skill, f.restored);
        if report.Some? {
          Publish(previous.skill, urls[previous.skill], report.value);
          return;
        }
      }
      registry.Replace(None);
    }

    method Switch(r: Request) returns (ok: bool)
      modifies registry, manager
      ensures (View(), ok) == Switched(old(View()), r, urls)
    {
      var f := r.faults;
      if r.busy || r.skill !in urls { return false; }
      var current := registry.active;
      if current.Some? && current.value.skill == r.skill && current.value.profile == r.profile { return true; }
      var stopFirst := current.Some? && (current.value.skill == r.skill || current.value.url == urls[r.skill]);
      if stopFirst {
        manager.Stop(current.value.skill, f.stopCurrent);
        if !f.stopCurrent { return false; }
      }
      manager.Start(r.skill, r.profile, f.start);
      var report: Option<Instance> := None;
      if f.start { report := manager.Status(r.skill, f.ready); }
      if report.None? {
        if f.start { manager.Stop(r.skill, f.cleanup); }
        if stopFirst { Rollback(current.value, f); }
        return false;
      }
      if current.Some? && !stopFirst {
        manager.Stop(current.value.skill, f.stopOld);
        if !f.stopOld {
          manager.Stop(r.skill, f.stopNew);
          return false;
        }
      }
      Publish(r.skill, urls[r.skill], report.value);
      return true;
    }
  }

  // ---- Safety --------------------------------------------------------------------------------

  /** The switch gets as far as starting its target. */
  predicate TakesEffect(m: Machine, r: Request, urls: map<string, string>)
  {
    && !r.busy && r.skill in urls && !Selected(m, r)
    && (StopFirst(m, r, urls) ==> r.faults.stopCurrent)
  }

  /** The registry names a runtime that runs, and names it correctly. */
  predicate Consistent(m: Machine)
  {
    m.active.Some? ==>
      m.active.value.skill in m.running
      && m.running[m.active.value.skill] == Instance(m.active.value.profile, m.active.value.instanceId)
  }

  /** Nothing runs but what the registry names. */
  predicate Exclusive(m: Machine)
  {
    m.running.Keys == if m.active.Some? then {m.active.value.skill} else {}
  }

  /** Every stop that this switch needs for cleaning up works. */
  predicate StopsWork(f: Faults)
  {
    f.cleanup && f.stopNew
  }

  /** The previous runtime had to make room, the target failed, and the previous one was started
      again without becoming ready: the one case that strands a running, unpublished runtime. */
  predicate Stranded(m: Machine, r: Request, urls: map<string, string>)
  {
    && !r.busy && r.skill in urls && !Selected(m, r) && StopFirst(m, r, urls) && r.faults.stopCurrent
    && TargetFails(StoppedIf(m, m.active.value.skill, true), r)
    && r.faults.restart && !(m.active.value.skill in urls && r.faults.restored.Ready?)
  }

  /** At every exit the registry names only a running runtime, whatever failed on the way. */
  lemma RegistryNamesRunning(m: Machine, r: Request, urls: map<string, string>)
    requires Consistent(m)
    ensures Consistent(Switched(m, r, urls).0)
  {
    if !r.busy && r.skill in urls && !Selected(m, r) && StopFirst(m, r, urls) {
      assert m.active.Some?;
    }
  }

  lemma RolledBackRuns(m: Machine, previous: Active, urls: map<string, string>, f: Faults)
    requires m.running.Keys == {}
    ensures var m' := RolledBack(m, previous, urls, f);
            m'.running.Keys == (if f.restart then {previous.skill} else {})
            && (Exclusive(m') <==> !(f.restart && !(previous.skill in urls && f.restored.Ready?)))
  {}

  /** The target takes the place of the runtime that was stopped first. */
  lemma OneAfterMakingRoom(m: Machine, r: Request, urls: map<string, string>)
    requires Consistent(m) && Exclusive(m) && StopsWork(r.faults)
    requires !r.busy && r.skill in urls && !Selected(m, r) && StopFirst(m, r, urls) && r.faults.stopCurrent
    ensures |Switched(m, r, urls).0.running.Keys| <= 1
    ensures Exclusive(Switched(m, r, urls).0) <==> !Stranded(m, r, urls)
  {
    var m1 := StoppedIf(m, m.active.value.skill, true);
    assert m1.running.Keys == {};
    if TargetFails(m1, r) {
      hide RolledBack, Exclusive;
      assert TargetFailed(m1, r).running.Keys == {};
      RolledBackRuns(TargetFailed(m1, r), m.active.value, urls, r.faults);
    } else {
      assert Switched(m, r, urls).0.running.Keys == {r.skill};
    }
  }

  /** The target starts beside the old runtime, which goes away only after it. */
  lemma OneAfterStartingBeside(m: Machine, r: Request, urls: map<string, string>)
    requires Consistent(m) && Exclusive(m) && StopsWork(r.faults)
    requires !r.busy && r.skill in urls && !Selected(m, r) && !StopFirst(m, r, urls)
    ensures |Switched(m, r, urls).0.running.Keys| <= 1
    ensures Exclusive(Switched(m, r, urls).0)
  {
    var m' := Switched(m, r, urls).0;
    assert m.active.Some? ==> m.active.value.skill != r.skill;
    assert m'.running.Keys == if m'.active.Some? then {m'.active.value.skill} else {};
  }

  /** While stops work, at most one runtime runs afterwards; and it is the published one exactly
      when no rollback stranded its runtime. */
  lemma AtMostOneRuns(m: Machine, r: Request, urls: map<string, string>)
    requires Consistent(m) && Exclusive(m) && StopsWork(r.faults)
    ensures |Switched(m, r, urls).0.running.Keys| <= 1
    ensures Exclusive(Switched(m, r, urls).0) <==> !Stranded(m, r, urls)
  {
    if r.busy || r.skill !in urls || Selected(m, r) {
      assert Switched(m, r, urls).0 == m;
    } else if !StopFirst(m, r, urls) {
      OneAfterStartingBeside(m, r, urls);
    } else if r.faults.stopCurrent {
      hide Switched;
      OneAfterMakingRoom(m, r, urls);
    } else {
      assert Switched(m, r, urls).0 == m;
    }
  }

  /** The same Skills run with the same profiles, and the registry names the same one. */
  predicate SameRuntimes(m: Machine, m': Machine)
  {
    && m'.running.Keys == m.running.Keys
    && (forall s :: s in m.running ==> m'.running[s].profile == m.running[s].profile)
    && m'.active.Some? == m.active.Some?
    && (m.active.Some? ==> m'.active.value.skill == m.active.value.skill
                           && m'.active.value.profile == m.active.value.profile)
  }

  lemma TargetFailedKeys(m: Machine, r: Request)
    requires r.faults.cleanup
    ensures TargetFailed(m, r).running.Keys == m.running.Keys - {r.skill}
    ensures TargetFailed(m, r).active == m.active
  {}

  lemma RestoredAfterMakingRoom(m: Machine, r: Request, urls: map<string, string>)
    requires Consistent(m) && Exclusive(m) && StopsWork(r.faults) && !Switched(m, r, urls).1
    requires !r.busy && r.skill in urls && !Selected(m, r) && StopFirst(m, r, urls)
    requires m.active.value.skill in urls && r.faults.restart && r.faults.restored.Ready?
    ensures SameRuntimes(m, Switched(m, r, urls).0)
  {
    if r.faults.stopCurrent {
      var m1 := StoppedIf(m, m.active.value.skill, true);
      assert m1.running.Keys == {};
      TargetFailedKeys(m1, r);
      var m2 := TargetFailed(m1, r);
      hide TargetFailed, TargetFails;
      assert m2.running.Keys == {};
      assert m.running.Keys == {m.active.value.skill};
    }
  }

  /** A switch that raises after a successful compensation has changed nothing: the same runtimes
      run and the registry names the same one. */
  lemma FailureRestores(m: Machine, r: Request, urls: map<string, string>)
    requires Consistent(m) && Exclusive(m) && StopsWork(r.faults) && !Switched(m, r, urls).1
    requires m.active.Some? ==> m.active.value.skill in urls
    requires r.faults.restart && r.faults.restored.Ready?
    ensures SameRuntimes(m, Switched(m, r, urls).0)
    ensures r.skill in urls && !StopFirst(m, r, urls) ==>
              Switched(m, r, urls).0.running == m.running && Switched(m, r, urls).0.active == m.active
  {
    if r.skill in urls && !r.busy && !Selected(m, r) {
      if StopFirst(m, r, urls) {
        RestoredAfterMakingRoom(m, r, urls);
      } else {
        assert r.skill !in m.running;
        assert Switched(m, r, urls).0.running == m.running;
      }
    }
  }

  /** A switch that returns leaves exactly the requested runtime, published. */
  lemma SuccessPublishes(m: Machine, r: Request, urls: map<string, string>)
    requires Consistent(m) && Exclusive(m) && Switched(m, r, urls).1
    ensures var m' := Switched(m, r, urls).0;
            && Selected(m', r) && Consistent(m') && m'.running.Keys == {r.skill}
            && m'.running[r.skill].profile == r.profile
  {
    var m' := Switched(m, r, urls).0;
    if !Selected(m, r) {
      assert m.running.Keys - (if m.active.Some? then {m.active.value.skill} else {}) == {};
      assert m'.running.Keys == {r.skill};
    }
  }

  /** Exactly when a switch returns: nothing is open, the Skill is installed, and either it is selected
      already or its runtime starts and reports ready, and the runtime in its way stops: before, if it
      has the same name or address, and else afterwards. */
  lemma ReturnsExactly(m: Machine, r: Request, urls: map<string, string>)
    ensures var f := r.faults;
            Switched(m, r, urls).1 <==>
              && !r.busy && r.skill in urls
              && (|| (m.active.Some? && m.active.value.skill == r.skill && m.active.value.profile == r.profile)
                  || (&& f.start && f.ready == Ready
                      && (m.active.Some? ==>
                            if m.active.value.skill == r.skill || m.active.value.url == urls[r.skill] then f.stopCurrent
                            else f.stopOld)))
  {}

  /** What a returning switch publishes: the requested Skill and profile under its own address, as the
      process that was just started, with a client that was never used before; unless it was selected. */
  lemma PublishesExactly(m: Machine, r: Request, urls: map<string, string>)
    requires Switched(m, r, urls).1
    ensures var m' := Switched(m, r, urls).0;
            if m.active.Some? && m.active.value.skill == r.skill && m.active.value.profile == r.profile then m' == m
            else && m'.active == Some(Active(r.skill, r.profile, m.stamp, urls[r.skill], m.stamp + 1))
                 && r.skill in m'.running && m'.running[r.skill] == Instance(r.profile, m.stamp)
                 && m'.stamp == m.stamp + 2
                 && (forall s :: s in m.running && s != r.skill && (m.active.None? || s != m.active.value.skill) ==>
                       s in m'.running && m'.running[s] == m.running[s])
  {}

  /** What a raising switch leaves selected: the same as before, until the runtime that had to make room
      was stopped; from then on that one again if it came back ready under its own address, and else none. */
  lemma FailurePublishesExactly(m: Machine, r: Request, urls: map<string, string>)
    requires !Switched(m, r, urls).1
    ensures var m', f := Switched(m, r, urls).0, r.faults;
            if r.busy || r.skill !in urls || m.active.None?
               || !(m.active.value.skill == r.skill || m.active.value.url == urls[r.skill]) || !f.stopCurrent
            then m'.active == m.active && m'.retired == m.retired
            else
              var old' := m.active.value;
              if f.restart && f.restored == Ready && old'.skill in urls
              then && m'.active.Some? && m'.active.value.skill == old'.skill && m'.active.value.profile == old'.profile
                   && m'.active.value.url == urls[old'.skill] && old'.skill in m'.running
                   && m'.running[old'.skill] == Instance(old'.profile, m'.active.value.instanceId)
              else m'.active == None
  {
    hide Replaced;
    ReplacedActive();
  }

  lemma ReplacedActive()
    ensures forall n: Machine, a: Option<Active> :: Replaced(n, a).active == a && Replaced(n, a).running == n.running
  {}

  /** The registry reaches a runtime under the address of its Skill. */
  predicate Addressed(m: Machine, urls: map<string, string>)
  {
    m.active.Some? ==> m.active.value.skill in urls && m.active.value.url == urls[m.active.value.skill]
  }

  // ---- Clients -------------------------------------------------------------------------------

  function Clients(m: Machine): set<nat>
  {
    (set c | c in m.retired) + if m.active.Some? then {m.active.value.client} else {}
  }

  lemma ReplacedKeepsClients(m: Machine, active: Option<Active>)
    ensures Clients(m) <= Clients(Replaced(m, active))
  {
    var m' := Replaced(m, active);
    assert m'.retired[..|m.retired|] == m.retired;
    forall c | c in m.retired ensures c in m'.retired { assert c in m'.retired[..|m.retired|]; }
  }

  lemma PublishedKeepsClients(m: Machine, skill: string, url: string)
    requires skill in m.running
    ensures Clients(m) <= Clients(Published(m, skill, url))
  {
    ReplacedKeepsClients(m, Some(Active(skill, m.running[skill].profile, m.running[skill].id, url, m.stamp)));
    hide Replaced;
  }

  lemma RollbackKeepsClients(m: Machine, previous: Active, urls: map<string, string>, f: Faults)
    ensures Clients(m) <= Clients(RolledBack(m, previous, urls, f))
  {
    hide Published, Replaced;
    var m1 := Started(m, previous.skill, previous.profile, f.restart);
    assert Clients(m1) == Clients(m);
    if f.restart && previous.skill in urls && ReportsReady(m1, previous.skill, f.restored) {
      PublishedKeepsClients(m1, previous.skill, urls[previous.skill]);
    } else {
      ReplacedKeepsClients(m1, None);
    }
  }

  /** Starting and stopping touch no client. */
  lemma SameClients(m: Machine, m': Machine)
    requires m'.active == m.active && m'.retired == m.retired
    ensures Clients(m') == Clients(m)
  {}

  /** No client is dropped without being kept for closing. */
  lemma NoClientLost(m: Machine, r: Request, urls: map<string, string>)
    ensures Clients(m) <= Clients(Switched(m, r, urls).0)
  {
    hide Published, RolledBack, Clients, TargetFails;
    var m' := Switched(m, r, urls).0;
    if !TakesEffect(m, r, urls) {
    } else if StopFirst(m, r, urls) {
      var m1 := StoppedIf(m, m.active.value.skill, true);
      if TargetFails(m1, r) {
        SameClients(m, TargetFailed(m1, r));
        RollbackKeepsClients(TargetFailed(m1, r), m.active.value, urls, r.faults);
      } else {
        SameClients(m, Started(m1, r.skill, r.profile, true));
        PublishedKeepsClients(Started(m1, r.skill, r.profile, true), r.skill, urls[r.skill]);
      }
    } else if Switched(m, r, urls).1 {
      var m1 := Started(m, r.skill, r.profile, true);
      var m2 := if m.active.Some? then StoppedIf(m1, m.active.value.skill, true) else m1;
      SameClients(m, m2);
      PublishedKeepsClients(m2, r.skill, urls[r.skill]);
    } else {
      SameClients(m, m');
    }
  }

  // ---- Runs of switches ----------------------------------------------------------------------

  function Switches(m: Machine, requests: seq<Request>, urls: map<string, string>): Machine
    decreases |requests|
  {
    if requests == [] then m else Switches(Switched(m, requests[0], urls).0, requests[1..], urls)
  }

  /** In no run, under any faults, does the registry name a runtime that is not running. */
  lemma {:induction false} RunsStayConsistent(m: Machine, requests: seq<Request>, urls: map<string, string>)
    requires Consistent(m)
    ensures Consistent(Switches(m, requests, urls))
    decreases |requests|
  {
    hide Switched, Consistent;
    if requests != [] {
      RegistryNamesRunning(m, requests[0], urls);
      RunsStayConsistent(Switched(m, requests[0], urls).0, requests[1..], urls);
    }
  }

  /** In every run the agent talks to the address of the Skill that is published. */
  lemma {:induction false} RunsStayAddressed(m: Machine, requests: seq<Request>, urls: map<string, string>)
    requires Addressed(m, urls)
    ensures Addressed(Switches(m, requests, urls), urls)
    decreases |requests|
  {
    if requests != [] {
      if Switched(m, requests[0], urls).1 { PublishesExactly(m, requests[0], urls); ReturnsExactly(m, requests[0], urls); }
      else { FailurePublishesExactly(m, requests[0], urls); }
      hide Switched;
      RunsStayAddressed(Switched(m, requests[0], urls).0, requests[1..], urls);
    }
  }

  /** As long as an AgentTask is open, no sequence of switches moves anything. */
  lemma {:induction false} OpenTaskForbidsSwitch(m: Machine, requests: seq<Request>, urls: map<string, string>)
    requires forall i :: 0 <= i < |requests| ==> requests[i].busy
    ensures Switches(m, requests, urls) == m
    decreases |requests|
  {
    if requests != [] { OpenTaskForbidsSwitch(m, requests[1..], urls); }
  }

  /** What runs without being published. */
  function Strays(m: Machine): set<string>
  {
    m.running.Keys - if m.active.Some? then {m.active.value.skill} else {}
  }

  lemma StraysAfterRollback(m: Machine, previous: Active, urls: map<string, string>, f: Faults)
    ensures var m' := RolledBack(m, previous, urls, f);
            Strays(m') == (m.running.Keys - {previous.skill})
                          + if f.restart && !(previous.skill in urls && f.restored.Ready?) then {previous.skill} else {}
  {
    hide Published;
    var m1 := Started(m, previous.skill, previous.profile, f.restart);
    assert m1.running.Keys == if f.restart then m.running.Keys + {previous.skill} else m.running.Keys - {previous.skill};
    if f.restart && previous.skill in urls && ReportsReady(m1, previous.skill, f.restored) {
      PublishedStrays(m1, previous.skill, urls[previous.skill]);
    }
  }

  lemma PublishedStrays(m: Machine, skill: string, url: string)
    requires skill in m.running
    ensures Strays(Published(m, skill, url)) == m.running.Keys - {skill}
    ensures Published(m, skill, url).running == m.running
  {}

  /** One switch, when clean-up stops work: its own target is never left stray, and a rollback that
      strands the previous runtime adds that one. */
  lemma StraysExactly(m: Machine, r: Request, urls: map<string, string>)
    requires Consistent(m) && StopsWork(r.faults)
    ensures Strays(Switched(m, r, urls).0) ==
            (if TakesEffect(m, r, urls) then Strays(m) - {r.skill} else Strays(m))
            + (if Stranded(m, r, urls) then {m.active.value.skill} else {})
  {
    hide RolledBack, Published, TargetFailed, TargetFails;
    if TakesEffect(m, r, urls) {
      if StopFirst(m, r, urls) {
        var m1 := StoppedIf(m, m.active.value.skill, true);
        TargetFailedKeys(m1, r);
        StraysAfterRollback(TargetFailed(m1, r), m.active.value, urls, r.faults);
        PublishedStrays(Started(m1, r.skill, r.profile, true), r.skill, urls[r.skill]);
      } else {
        TargetFailedKeys(m, r);
        var m1 := Started(m, r.skill, r.profile, true);
        PublishedStrays(m1, r.skill, urls[r.skill]);
        if m.active.Some? { PublishedStrays(StoppedIf(m1, m.active.value.skill, true), r.skill, urls[r.skill]); }
      }
    }
  }

  predicate CleanUpWorks(requests: seq<Request>)
  {
    forall i :: 0 <= i < |requests| ==> StopsWork(requests[i].faults)
  }

  /** No switch of the run gets as far as starting this Skill. */
  predicate NeverTarget(m: Machine, requests: seq<Request>, urls: map<string, string>, x: string)
    decreases |requests|
  {
    requests == []
    || (!(TakesEffect(m, requests[0], urls) && requests[0].skill == x)
        && NeverTarget(Switched(m, requests[0], urls).0, requests[1..], urls, x))
  }

  /** Some switch of the run strands this Skill's runtime, and no later one targets the Skill. */
  predicate Forsaken(m: Machine, requests: seq<Request>, urls: map<string, string>, x: string)
    decreases |requests|
  {
    requests != []
    && var m' := Switched(m, requests[0], urls).0;
       || (Stranded(m, requests[0], urls) && m.active.value.skill == x && NeverTarget(m', requests[1..], urls, x))
       || Forsaken(m', requests[1..], urls, x)
  }

  lemma {:induction false} StraysOfRun(m: Machine, requests: seq<Request>, urls: map<string, string>, x: string)
    requires Consistent(m) && CleanUpWorks(requests)
    ensures x in Strays(Switches(m, requests, urls)) <==>
            (x in Strays(m) && NeverTarget(m, requests, urls, x)) || Forsaken(m, requests, urls, x)
    decreases |requests|
  {
    hide Switched, Consistent, Strays, TakesEffect, Stranded, StopsWork;
    if requests != [] {
      RegistryNamesRunning(m, requests[0], urls);
      StraysExactly(m, requests[0], urls);
      StraysOfRun(Switched(m, requests[0], urls).0, requests[1..], urls, x);
    }
  }

  /** Over any run of switches whose clean-up stops work: nothing but the published runtime runs at the
      end if and only if every runtime a rollback stranded was the target of a later switch. */
  lemma RunsStayExclusive(m: Machine, requests: seq<Request>, urls: map<string, string>)
    requires Consistent(m) && Exclusive(m) && CleanUpWorks(requests)
    ensures Exclusive(Switches(m, requests, urls)) <==> forall x :: !Forsaken(m, requests, urls, x)
  {
    var m' := Switches(m, requests, urls);
    RunsStayConsistent(m, requests, urls);
    hide Switches, Forsaken, NeverTarget, Strays;
    ExclusiveMeansNoStray(m);
    ExclusiveMeansNoStray(m');
    forall x ensures x in Strays(m') <==> Forsaken(m, requests, urls, x) { StraysOfRun(m, requests, urls, x); }
    if Strays(m') != {} {
      var x :| x in Strays(m');
      assert Forsaken(m, requests, urls, x);
    }
  }

  lemma ExclusiveMeansNoStray(m: Machine)
    requires Consistent(m)
    ensures Exclusive(m) <==> Strays(m) == {}
  {
    if Strays(m) == {} && m.active.Some? {
      forall s | s in m.running.Keys ensures s == m.active.value.skill { assert s !in Strays(m); }
      assert m.running.Keys == {m.active.value.skill};
    }
  }

  /** Exactly when two runtimes run at the end of such a run. */
  lemma TwoRunExactly(m: Machine, requests: seq<Request>, urls: map<string, string>)
    requires Consistent(m) && Exclusive(m) && CleanUpWorks(requests)
    ensures var m' := Switches(m, requests, urls);
            |m'.running.Keys| >= 2 <==>
              || (m'.active.Some? && exists x :: Forsaken(m, requests, urls, x))
              || (exists x, y :: x != y && Forsaken(m, requests, urls, x) && Forsaken(m, requests, urls, y))
  {
    var m' := Switches(m, requests, urls);
    RunsStayConsistent(m, requests, urls);
    hide Switches, Forsaken, NeverTarget;
    assert Strays(m) == {};
    forall x ensures x in Strays(m') <==> Forsaken(m, requests, urls, x) { StraysOfRun(m, requests, urls, x); }
    var keys := m'.running.Keys;
    if |keys| >= 2 {
      TwoElements(keys, if m'.active.Some? then m'.active.value.skill else "");
      var x :| x in keys && x != if m'.active.Some? then m'.active.value.skill else "";
      assert Forsaken(m, requests, urls, x) by { assert x in Strays(m'); }
      if m'.active.None? {
        TwoElements(keys, x);
        var y :| y in keys && y != x;
        assert Forsaken(m, requests, urls, y) by { assert y in Strays(m'); }
        assert exists x, y :: x != y && Forsaken(m, requests, urls, x) && Forsaken(m, requests, urls, y);
      } else {
        assert exists x :: Forsaken(m, requests, urls, x);
      }
    } else if x, y :| x != y && Forsaken(m, requests, urls, x) && Forsaken(m, requests, urls, y) {
      AtLeastTwo(keys, x, y);
    } else if x :| m'.active.Some? && Forsaken(m, requests, urls, x) {
      AtLeastTwo(keys, x, m'.active.value.skill);
    }
  }

  lemma TwoElements(s: set<string>, x: string)
    requires |s| >= 2
    ensures exists y :: y in s && y != x
  {
    if forall y :: y in s ==> y == x { assert s <= {x}; Fewer(s, {x}); }
  }

  lemma AtLeastTwo(s: set<string>, x: string, y: string)
    requires x in s && y in s && x != y
    ensures |s| >= 2
  {
    Fewer({x, y}, s);
  }

  lemma {:induction false} Fewer<T>(a: set<T>, b: set<T>)
    requires a <= b
    ensures |a| <= |b|
    decreases a
  {
    if a != {} {
      var x :| x in a;
      Fewer(a - {x}, b - {x});
    }
  }

  const URLS: map<string, string> := map["a" := "u", "b" := "u", "c" := "v"]
  const WORKING := Faults(true, true, Ready, true, true, Ready, true, true)

  /** A rollback whose runtime starts but is not ready, followed by an ordinary switch: two
      runtimes run although every stop worked. */
  lemma StrandedRuntimeDoubles()
    ensures var m := Machine(map["a" := Instance("p", 0)], Some(Active("a", "p", 0, "u", 1)), [], 2);
            var failing := Request(false, "b", "p", WORKING.(start := false, restored := NotReady));
            var m' := Switches(m, [failing, Request(false, "c", "p", WORKING)], URLS);
            Consistent(m) && Exclusive(m) && StopsWork(failing.faults) && m'.running.Keys == {"a", "c"}
  {
    var m := Machine(map["a" := Instance("p", 0)], Some(Active("a", "p", 0, "u", 1)), [], 2);
    var failing := Request(false, "b", "p", WORKING.(start := false, restored := NotReady));
    var second := Request(false, "c", "p", WORKING);
    var m1 := Switched(m, failing, URLS).0;
    assert m1.active.None? && m1.running.Keys == {"a"};
    var m2 := Switched(m1, second, URLS).0;
    assert [failing, second][1..] == [second] && [second][1..] == [];
    assert Switches(m2, [], URLS) == m2;
    assert Switches(m1, [second], URLS) == m2;
  }
}
