/** What is planned, and for when: every enabled job of a running service, at every moment of its life, in
    terms of its schedule and of when it was last added, enabled, started with the service, or ran. */
module CronPlans {
  import opened Common
  import opened Cron
  import opened CronRuns

  /** When each job was last added, enabled, part of a start, or came back from its callback. */
  type Stamps = map<string, int>

  function Stamp(stamps: Stamps, l: Life, e: Event): Stamps
    requires Possible(l, e)
  {
    match e
    case Start(now) => stamps + map j | j in Store(l) :: j.id := now
    case CallbackEnds(now) => stamps[l.task.due[l.task.done] := now]
    case Add(id, _, _, now) => stamps[id := now]
    case Enable(id, _, now) => stamps[id := now]
    case RunEnds(k, now) => stamps[l.manual[k].id := now]
    case _ => stamps
  }

  /** The stamps after a history. */
  function Stamped(stamps: Stamps, l: Life, events: seq<Event>, calendar: Calendar): Stamps
    requires AllPossible(l, events, calendar)
    decreases |events|
  {
    if events == [] then stamps
    else Stamped(Stamp(stamps, l, events[0]), Follow(l, events[0], calendar), events[1..], calendar)
  }

  /** Planned as its schedule asks, counting from this moment: an interval job for exactly one interval
      later, a one-shot for its own time if that was still to come, an expression for the calendar's
      next match; and what can never run is not planned. */
  predicate PlannedSince(j: Job, since: int, calendar: Calendar)
  {
    match j.schedule
    case Every(ms) => j.next == if ms.Some? && ms.value > 0 then Some(since + ms.value) else None
    case At(ms) => j.next == if ms.Some? && ms.value > 0 && ms.value > since then ms else None
    case Expression(text, _) => j.next == if text != "" then calendar(j.schedule, since) else None
  }

  ghost predicate AllPlanned(jobs: seq<Job>, stamps: Stamps, calendar: Calendar)
  {
    forall j :: j in jobs && j.enabled ==> j.id in stamps && stamps[j.id] >= 0 && PlannedSince(j, stamps[j.id], calendar)
  }

  ghost predicate Punctual(l: Life, stamps: Stamps, calendar: Calendar)
  {
    l.clock >= 0 && (l.running ==> l.memory.Some? && AllPlanned(l.memory.value, stamps, calendar))
  }

  lemma PlannedNow(j: Job, now: int, calendar: Calendar)
    requires now >= 0
    ensures PlannedSince(j.(next := NextRun(j.schedule, now, calendar)), now, calendar)
  {}

  lemma RecomputedPlanned(jobs: seq<Job>, stamps: Stamps, now: int, calendar: Calendar)
    requires now >= 0
    ensures AllPlanned(Recomputed(jobs, now, calendar), stamps + (map j | j in jobs :: j.id := now), calendar)
  {
    var r := Recomputed(jobs, now, calendar);
    forall i | 0 <= i < |r| && r[i].enabled
      ensures r[i].id in stamps + (map j | j in jobs :: j.id := now)
      ensures (stamps + (map j | j in jobs :: j.id := now))[r[i].id] == now && PlannedSince(r[i], now, calendar)
    {
      assert jobs[i] in jobs && jobs[i].id == r[i].id;
      PlannedNow(jobs[i], now, calendar);
    }
  }

  /** Executing or planning one job leaves the plans of the others alone. */
  lemma OthersPlanned(jobs: seq<Job>, r: seq<Job>, stamps: Stamps, id: string, now: int, calendar: Calendar)
    requires AllPlanned(jobs, stamps, calendar) && now >= 0
    requires forall j :: j in r && j.id != id ==> j in jobs
    requires forall j :: j in r && j.id == id && j.enabled ==> PlannedSince(j, now, calendar)
    ensures AllPlanned(r, stamps[id := now], calendar)
  {
    hide PlannedSince;
  }

  lemma ExecutedPlanned(jobs: seq<Job>, stamps: Stamps, id: string, start: int, now: int, calendar: Calendar)
    requires UniqueIds(jobs) && AllPlanned(jobs, stamps, calendar) && now >= 0
    ensures AllPlanned(Executed(jobs, id, start, now, calendar), stamps[id := now], calendar)
  {
    var r := Executed(jobs, id, start, now, calendar);
    ExecutedUnique(jobs, id, start, now, calendar);
    forall j | j in r && j.id == id && j.enabled ensures PlannedSince(j, now, calendar) { PlannedNow(j, now, calendar); }
    hide Executed, UniqueIds, PlannedSince;
    OthersPlanned(jobs, r, stamps, id, now, calendar);
  }

  lemma EnabledPlanned(jobs: seq<Job>, stamps: Stamps, id: string, enabled: bool, now: int, calendar: Calendar)
    requires UniqueIds(jobs) && AllPlanned(jobs, stamps, calendar) && now >= 0
    ensures AllPlanned(Enabled(jobs, id, enabled, now, calendar), stamps[id := now], calendar)
  {
    var r := Enabled(jobs, id, enabled, now, calendar);
    var i := Position(jobs, id);
    forall k | 0 <= k < |r| ensures r[k].id != id ==> r[k] in jobs {
      if k != i { assert r[k] == jobs[k]; }
    }
    forall k | 0 <= k < |r| && r[k].id == id && r[k].enabled ensures PlannedSince(r[k], now, calendar) {
      assert k == i;
      PlannedNow(jobs[i].(enabled := enabled), now, calendar);
    }
    hide UniqueIds, PlannedSince, Enabled;
    OthersPlanned(jobs, r, stamps, id, now, calendar);
  }

  lemma AddedPlanned(jobs: seq<Job>, stamps: Stamps, id: string, schedule: Schedule, deleteAfterRun: bool, now: int,
                     calendar: Calendar)
    requires AllPlanned(jobs, stamps, calendar) && now >= 0 && forall j :: j in jobs ==> j.id != id
    ensures AllPlanned(jobs + [NewJob(id, schedule, deleteAfterRun, now, calendar)], stamps[id := now], calendar)
  {
    PlannedNow(NewJob(id, schedule, deleteAfterRun, now, calendar), now, calendar);
    hide PlannedSince;
    OthersPlanned(jobs, jobs + [NewJob(id, schedule, deleteAfterRun, now, calendar)], stamps, id, now, calendar);
  }

  lemma FollowPunctual(l: Life, stamps: Stamps, e: Event, calendar: Calendar)
    requires Sound(l) && Punctual(l, stamps, calendar) && Possible(l, e)
    ensures Punctual(Follow(l, e, calendar), Stamp(stamps, l, e), calendar)
  {
    hide Sound, AllPlanned, Executed, Enabled, Without, Wake, DueIds, Recomputed;
    StoreKept(l, e.now);
    assert UniqueIds(Store(l)) && forall j :: j in Store(l) ==> j.id in l.used;
    match e
    case Start(now) => RecomputedPlanned(Store(l), stamps, now, calendar);
    case CallbackEnds(now) =>
      TimerRuns(l);
      ExecutedPlanned(Store(l), stamps, l.task.due[l.task.done], l.task.since, now, calendar);
    case Add(id, schedule, deleteAfterRun, now) =>
      if l.running { AddedPlanned(Store(l), stamps, id, schedule, deleteAfterRun, now, calendar); }
    case Enable(id, enabled, now) =>
      if l.running {
        EnabledPlanned(Store(l), stamps, id, enabled, now, calendar);
        UnknownStamp(Store(l), stamps, id, now, calendar);
      }
    case Remove(id, now) => if l.running { FewerPlanned(Store(l), Without(Store(l), id), stamps, calendar); }
    case RunEnds(k, now) =>
      if l.running { ExecutedPlanned(Store(l), stamps, l.manual[k].id, l.manual[k].since, now, calendar); }
    case _ =>
  }

  lemma FewerPlanned(jobs: seq<Job>, r: seq<Job>, stamps: Stamps, calendar: Calendar)
    requires AllPlanned(jobs, stamps, calendar) && forall j :: j in r ==> j in jobs
    ensures AllPlanned(r, stamps, calendar)
  {
    hide PlannedSince;
  }

  lemma UnknownStamp(jobs: seq<Job>, stamps: Stamps, id: string, now: int, calendar: Calendar)
    requires AllPlanned(jobs, stamps, calendar)
    ensures Position(jobs, id) == |jobs| ==> AllPlanned(jobs, stamps[id := now], calendar)
  {
    hide PlannedSince;
    if Position(jobs, id) == |jobs| { assert forall j :: j in jobs ==> j.id != id; }
  }

  lemma {:induction false} LivePunctual(l: Life, stamps: Stamps, events: seq<Event>, calendar: Calendar)
    requires Sound(l) && Punctual(l, stamps, calendar) && AllPossible(l, events, calendar)
    ensures Punctual(Live(l, events, calendar), Stamped(stamps, l, events, calendar), calendar)
    decreases |events|
  {
    hide Sound, Punctual, Follow, Possible, Stamp;
    if events != [] {
      FollowSound(l, events[0], calendar);
      FollowPunctual(l, stamps, events[0], calendar);
      LivePunctual(Follow(l, events[0], calendar), Stamp(stamps, l, events[0]), events[1..], calendar);
    }
  }

  /** In every life, interrupted or not: while the service runs, every enabled job in its memory is planned
      as its schedule asks since it was last added, enabled, started with the service, or ran. So every
      interval job is planned, and a one-shot that was not too late is planned for its own time until it
      has run or was disabled. */
  lemma EveryJobIsPlanned(events: seq<Event>, calendar: Calendar)
    requires AllPossible(BORN, events, calendar)
    ensures var l, stamps := Live(BORN, events, calendar), Stamped(map[], BORN, events, calendar);
            l.running ==> forall j :: j in Store(l) && j.enabled ==>
              j.id in stamps && PlannedSince(j, stamps[j.id], calendar)
  {
    BornSound();
    LivePunctual(BORN, map[], events, calendar);
    LiveSound(BORN, events, calendar);
  }

  // ---- What running does to a job ------------------------------------------------------------------

  /** A job that ran: a one-shot to be deleted is gone, any other one-shot is disabled and unplanned, an
      interval job or expression stays enabled as it was and is planned from the end of the run. The
      start of the run is noted, and every other job stays as and where it was. */
  lemma RanExactly(jobs: seq<Job>, i: nat, start: int, now: int, calendar: Calendar)
    requires UniqueIds(jobs) && i < |jobs| && now >= 0
    ensures var j := jobs[i];
            var r := Executed(jobs, j.id, start, now, calendar);
            if j.schedule.At? && j.deleteAfterRun then r == jobs[..i] + jobs[i + 1..]
            else
              && |r| == |jobs| && (forall k :: 0 <= k < |jobs| && k != i ==> r[k] == jobs[k])
              && r[i] == j.(lastRun := Some(start), enabled := !j.schedule.At? && j.enabled, next := r[i].next)
              && if j.schedule.At? then r[i].next == None else PlannedSince(r[i], now, calendar)
  {
    var j := jobs[i];
    assert Position(jobs, j.id) == i;
    PlannedNow(j.(lastRun := Some(start)), now, calendar);
    if j.schedule.At? && j.deleteAfterRun { WithoutOne(jobs, i); }
  }

  lemma {:induction false} WithoutOne(jobs: seq<Job>, i: nat)
    requires UniqueIds(jobs) && i < |jobs|
    ensures Without(jobs, jobs[i].id) == jobs[..i] + jobs[i + 1..]
  {
    UniqueRest(jobs);
    hide UniqueIds;
    if i == 0 {
      WithoutAbsent(jobs[1..], jobs[0].id);
      assert jobs[..0] + jobs[1..] == jobs[1..];
    } else {
      WithoutOne(jobs[1..], i - 1);
      OneTakenOut(jobs, i);
    }
  }

  lemma UniqueRest(jobs: seq<Job>)
    requires UniqueIds(jobs) && jobs != []
    ensures UniqueIds(jobs[1..]) && forall j :: j in jobs[1..] ==> j.id != jobs[0].id
  {}

  lemma OneTakenOut(jobs: seq<Job>, i: nat)
    requires 0 < i < |jobs|
    ensures jobs[1..][i - 1] == jobs[i] && jobs[1..][i - 1] in jobs[1..]
    ensures [jobs[0]] + (jobs[1..][..i - 1] + jobs[1..][i..]) == jobs[..i] + jobs[i + 1..]
  {}

  lemma {:induction false} WithoutAbsent(jobs: seq<Job>, id: string)
    requires forall j :: j in jobs ==> j.id != id
    ensures Without(jobs, id) == jobs
  {
    if jobs != [] {
      WithoutAbsent(jobs[1..], id);
      assert jobs == [jobs[0]] + jobs[1..];
    }
  }

  /** The jobs with these identifiers are found at these places, in the order of the store. */
  ghost predicate Found(places: seq<nat>, ids: seq<string>, jobs: seq<Job>)
  {
    && |places| == |ids|
    && (forall k :: 0 <= k < |places| ==> places[k] < |jobs| && jobs[places[k]].id == ids[k])
    && (forall k, l :: 0 <= k < l < |places| ==> places[k] < places[l])
  }

  lemma FoundMore(places: seq<nat>, ids: seq<string>, jobs: seq<Job>, last: Job)
    requires Found(places, ids, jobs)
    ensures Found(places, ids, jobs + [last]) && Found(places + [|jobs|], ids + [last.id], jobs + [last])
  {
    var all := jobs + [last];
    assert forall k :: 0 <= k < |places| ==> all[places[k]] == jobs[places[k]];
    assert all[|jobs|] == last;
  }

  /** A tick lists what is due in the order of the store. */
  lemma {:induction false} DueInOrder(jobs: seq<Job>, now: int) returns (places: seq<nat>)
    ensures Found(places, DueIds(jobs, now), jobs)
  {
    if jobs == [] {
      places := [];
    } else {
      var front, last := jobs[..|jobs| - 1], jobs[|jobs| - 1];
      var before := DueInOrder(front, now);
      hide Due, Found;
      FoundMore(before, DueIds(front, now), front, last);
      assert jobs == front + [last];
      assert DueIds(jobs, now) == DueIds(front, now) + if Due(last, now) then [last.id] else [];
      assert DueIds(front, now) + [] == DueIds(front, now);
      places := if Due(last, now) then before + [|front|] else before;
    }
  }

  /** The event is about this very job: it removes, enables, disables or executes it. */
  predicate Concerns(l: Life, e: Event, id: string)
    requires Possible(l, e)
  {
    match e
    case Remove(other, _) => other == id
    case Enable(other, _, _) => other == id
    case CallbackEnds(_) => l.task.due[l.task.done] == id
    case RunEnds(k, _) => l.manual[k].id == id
    case _ => false
  }

  /** As long as the process lives, a job stays what it is, enabled or not, through every event that is
      not about it; a start plans it afresh. */
  lemma JobStays(l: Life, e: Event, j: Job, calendar: Calendar)
    requires Sound(l) && Possible(l, e) && !e.Die? && j in Store(l) && !Concerns(l, e, j.id)
    ensures e.Start? && j.enabled ==> exists r :: r in Store(Follow(l, e, calendar)) && r == j.(next := r.next)
    ensures !(e.Start? && j.enabled) ==> j in Store(Follow(l, e, calendar))
  {
    StoreKept(l, e.now);
    assert UniqueIds(Store(l));
    hide Sound, UniqueIds, NextRun, Wake, Without, Executed;
    match e
    case Start(now) =>
      var i :| 0 <= i < |Store(l)| && Store(l)[i] == j;
      assert Recomputed(Store(l), now, calendar)[i] == Replanned(j, now, calendar);
      assert Replanned(j, now, calendar) in Store(Follow(l, e, calendar));
    case CallbackEnds(now) =>
      TimerRuns(l);
      ExecutedUnique(Store(l), l.task.due[l.task.done], l.task.since, now, calendar);
    case RunEnds(k, now) => ExecutedUnique(Store(l), l.manual[k].id, l.manual[k].since, now, calendar);
    case Enable(id, enabled, now) =>
      var i :| 0 <= i < |Store(l)| && Store(l)[i] == j;
      if Position(Store(l), id) < |Store(l)| { assert Enabled(Store(l), id, enabled, now, calendar)[i] == j; }
    case _ =>
  }

  /** Enabling and disabling set just that and the plan; a job that is added is enabled and last. */
  lemma ToldExactly(l: Life, e: Event, calendar: Calendar)
    requires Sound(l) && Possible(l, e) && (e.Enable? || e.Add?)
    ensures e.Enable? ==>
              var jobs, r, i := Store(l), Store(Follow(l, e, calendar)), Position(Store(l), e.id);
              |r| == |jobs| && forall k :: 0 <= k < |jobs| ==>
                r[k] == if jobs[k].id == e.id then jobs[k].(enabled := e.enabled, next := r[k].next) else jobs[k]
    ensures e.Enable? && !e.enabled ==>
              forall j :: j in Store(Follow(l, e, calendar)) && j.id == e.id ==> !j.enabled && j.next.None?
    ensures e.Add? ==>
              var jobs, r := Store(l), Store(Follow(l, e, calendar));
              |r| == |jobs| + 1 && r[..|jobs|] == jobs
              && r[|jobs|] == Job(e.id, true, e.schedule, r[|jobs|].next, e.deleteAfterRun, None)
  {
    StoreKept(l, e.now);
    assert UniqueIds(Store(l));
    hide Sound, NextRun, Wake;
  }

  // ---- What a call does --------------------------------------------------------------------------

  /** The service was started, and neither stopped nor killed since. */
  ghost predicate Up(events: seq<Event>)
  {
    exists k :: 0 <= k < |events| && events[k].Start? && forall n :: k < n < |events| ==> !events[n].Stop? && !events[n].Die?
  }

  lemma UpNext(events: seq<Event>, e: Event)
    ensures Up(events + [e]) <==> e.Start? || (Up(events) && !e.Stop? && !e.Die?)
  {
    var all := events + [e];
    assert all[|events|] == e && forall n :: 0 <= n < |events| ==> all[n] == events[n];
    if Up(all) && !e.Start? {
      var k :| 0 <= k < |all| && all[k].Start? && forall n :: k < n < |all| ==> !all[n].Stop? && !all[n].Die?;
      assert k < |events| && forall n :: k < n < |events| ==> !events[n].Stop? && !events[n].Die?;
    }
    if Up(events) && !e.Stop? && !e.Die? {
      var k :| 0 <= k < |events| && events[k].Start? && forall n :: k < n < |events| ==> !events[n].Stop? && !events[n].Die?;
      assert all[k].Start?;
    }
  }

  lemma FollowRuns(l: Life, e: Event, calendar: Calendar)
    requires Possible(l, e)
    ensures Follow(l, e, calendar).running <==> e.Start? || (l.running && !e.Stop? && !e.Die?)
  {
    hide Executed, Enabled, Without, Wake, DueIds, Recomputed, Position;
  }

  lemma {:induction false} RunsWhile(l: Life, before: seq<Event>, events: seq<Event>, calendar: Calendar)
    requires AllPossible(l, events, calendar) && (l.running <==> Up(before))
    ensures Live(l, events, calendar).running <==> Up(before + events)
    decreases |events|
  {
    hide Follow, Possible, Up;
    if events == [] {
      assert before + events == before;
    } else {
      FollowRuns(l, events[0], calendar);
      UpNext(before, events[0]);
      RunsWhile(Follow(l, events[0], calendar), before + [events[0]], events[1..], calendar);
      assert before + [events[0]] + events[1..] == before + events;
    }
  }

  /** In every life the service runs exactly from a start to the next stop or death. */
  lemma RunsFromStartToStop(events: seq<Event>, calendar: Calendar)
    requires AllPossible(BORN, events, calendar)
    ensures Live(BORN, events, calendar).running <==> Up(events)
  {
    RunsWhile(BORN, [], events, calendar);
    assert [] + events == events;
  }

  /** A manual run begins exactly for a job that is there and enabled, or forced; nothing else changes. */
  lemma RunBegunExactly(l: Life, e: Event, calendar: Calendar)
    requires Sound(l) && Possible(l, e) && e.RunBegins?
    ensures var l' := Follow(l, e, calendar);
            && Store(l') == Store(l) && l'.task == l.task && l'.fired == l.fired
            && l'.manual == if exists j :: j in Store(l) && j.id == e.id && (e.force || j.enabled)
                            then l.manual + [Manual(e.id, e.now)] else l.manual
  {
    StoreKept(l, e.now);
    assert UniqueIds(Store(l));
    var jobs := Store(l);
    var i := Position(jobs, e.id);
    hide Sound, Wake, Executed, Without, Recomputed, Enabled;
    if i < |jobs| {
      assert jobs[i] in jobs;
      forall j | j in jobs && j.id == e.id ensures j == jobs[i] {
        var k :| 0 <= k < |jobs| && jobs[k] == j;
      }
    }
  }

  /** A removal takes out the one job with that identifier and keeps the others in order. */
  lemma RemovedExactly(l: Life, e: Event, calendar: Calendar)
    requires Sound(l) && Possible(l, e) && e.Remove?
    ensures var jobs, r := Store(l), Store(Follow(l, e, calendar));
            if exists i :: 0 <= i < |jobs| && jobs[i].id == e.id
            then exists i :: 0 <= i < |jobs| && jobs[i].id == e.id && r == jobs[..i] + jobs[i + 1..]
            else r == jobs
  {
    StoreKept(l, e.now);
    assert UniqueIds(Store(l));
    var i := Position(Store(l), e.id);
    hide Sound, Wake, Without;
    if i < |Store(l)| { WithoutOne(Store(l), i); }
  }
}
