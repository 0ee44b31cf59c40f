/** The job scheduler, one step at a time. The timer's task starts a job and waits for its callback;
    meanwhile other turns call the service, and every call that arms the timer cancels that task. */
module Cron {
  import opened Common

  datatype Schedule = At(ms: Option<int>) | Every(ms: Option<int>) | Expression(text: string, zone: string)

  datatype Job = Job(id: string, enabled: bool, schedule: Schedule, next: Option<int>,
                     deleteAfterRun: bool, lastRun: Option<int>)

  /** The next time after a moment that an expression matches, if it has one. */
  type Calendar = (Schedule, int) -> Option<int>

  /** `_compute_next_run`. */
  function NextRun(s: Schedule, now: int, calendar: Calendar): Option<int>
  {
    match s
    case At(ms) => if ms.Some? && ms.value != 0 && ms.value > now then ms else None
    case Every(ms) => if ms.Some? && ms.value > 0 then Some(now + ms.value) else None
    case Expression(text, _) => if text == "" then None else calendar(s, now)
  }

  /** A next run of zero counts as none. */
  predicate Planned(j: Job)
  {
    j.enabled && j.next.Some? && j.next.value != 0
  }

  predicate Due(j: Job, now: int)
  {
    Planned(j) && now >= j.next.value
  }

  ghost predicate UniqueIds(jobs: seq<Job>)
  {
    forall i, k :: 0 <= i < k < |jobs| ==> jobs[i].id != jobs[k].id
  }

  /** Position of the job with this id, or the number of jobs. */
  function Position(jobs: seq<Job>, id: string): (i: nat)
    ensures i <= |jobs| && (i < |jobs| ==> jobs[i].id == id) && forall k :: 0 <= k < i ==> jobs[k].id != id
  {
    if jobs == [] then 0 else if jobs[0].id == id then 0 else Position(jobs[1..], id) + 1
  }

  function Without(jobs: seq<Job>, id: string): (r: seq<Job>)
    ensures forall j :: j in r <==> j in jobs && j.id != id
  {
    if jobs == [] then [] else (if jobs[0].id == id then [] else [jobs[0]]) + Without(jobs[1..], id)
  }

  /** What executing the job with this id does to the store. A one-shot job is deleted or disabled,
      any other is planned again. */
  function Executed(jobs: seq<Job>, id: string, start: int, now: int, calendar: Calendar): seq<Job>
  {
    var i := Position(jobs, id);
    if i == |jobs| then jobs
    else
      var j := jobs[i].(lastRun := Some(start));
      if !j.schedule.At? then jobs[i := j.(next := NextRun(j.schedule, now, calendar))]
      else if j.deleteAfterRun then Without(jobs, id)
      else jobs[i := j.(enabled := false, next := None)]
  }

  function DueIds(jobs: seq<Job>, now: int): seq<string>
  {
    if jobs == [] then []
    else DueIds(jobs[..|jobs| - 1], now) + if Due(jobs[|jobs| - 1], now) then [jobs[|jobs| - 1].id] else []
  }

  function Replanned(j: Job, now: int, calendar: Calendar): Job
  {
    if j.enabled then j.(next := NextRun(j.schedule, now, calendar)) else j
  }

  function Recomputed(jobs: seq<Job>, now: int, calendar: Calendar): (r: seq<Job>)
    ensures |r| == |jobs| && forall i :: 0 <= i < |r| ==> r[i] == Replanned(jobs[i], now, calendar)
  {
    seq(|jobs|, i requires 0 <= i < |jobs| => Replanned(jobs[i], now, calendar))
  }

  function Enabled(jobs: seq<Job>, id: string, enabled: bool, now: int, calendar: Calendar): seq<Job>
  {
    var i := Position(jobs, id);
    if i == |jobs| then jobs
    else jobs[i := jobs[i].(enabled := enabled,
                            next := if enabled then NextRun(jobs[i].schedule, now, calendar) else None)]
  }

  function NewJob(id: string, schedule: Schedule, deleteAfterRun: bool, now: int, calendar: Calendar): Job
  {
    Job(id, true, schedule, NextRun(schedule, now, calendar), deleteAfterRun, None)
  }

  // ---- The life of a service -------------------------------------------------------------------

  /** `_timer_task`: asleep until a planned time, or inside a tick. A tick that began at `now` found
      `due`, has executed the first `done` of them, and since `since` waits for the next one's callback. */
  datatype TimerTask = NoTask | Sleeping(wake: int) | Ticking(now: int, due: seq<string>, done: nat, since: int)

  /** A manual run whose callback has not come back. */
  datatype Manual = Manual(id: string, since: int)

  /** Disk and memory, the timer's task, the one-shot jobs the timer has fired, the latest time seen and
      the ids ever given out. Without memory the process is down, or has not loaded its store. */
  datatype Life = Life(disk: seq<Job>, memory: Option<seq<Job>>, running: bool, task: TimerTask,
                       manual: seq<Manual>, fired: seq<string>, clock: int, used: set<string>)

  const BORN := Life([], None, false, NoTask, [], [], 0, {})

  /** What happens between two awaits. A callback ends when it returns or raises; one that is cancelled
      takes its tick with it, which is part of the call that cancels. */
  datatype Event =
    | Start(now: int)
    | Stop(now: int)
    | Die(now: int)
    | TimerFires(now: int)
    | CallbackEnds(now: int)
    | Add(id: string, schedule: Schedule, deleteAfterRun: bool, now: int)
    | Remove(id: string, now: int)
    | Enable(id: string, enabled: bool, now: int)
    | RunBegins(id: string, force: bool, now: int)
    | RunEnds(k: nat, now: int)
    | RunDropped(k: nat, now: int)

  function Store(l: Life): seq<Job>
  {
    l.memory.GetOr(l.disk)
  }

  function Loaded(l: Life, now: int): Life
  {
    l.(memory := Some(Store(l)), clock := now)
  }

  /** The task of a timer that was just armed. */
  function Asleep(jobs: seq<Job>, running: bool): TimerTask
  {
    var wake := Wake(jobs);
    if wake.None? || !running then NoTask else Sleeping(wake.value)
  }

  /** Saving and arming: whatever the timer's task was doing is cancelled. */
  function Armed(l: Life, jobs: seq<Job>, now: int): Life
  {
    l.(disk := jobs, memory := Some(jobs), task := Asleep(jobs, l.running), clock := now)
  }

  predicate OneShot(jobs: seq<Job>, id: string)
  {
    var i := Position(jobs, id);
    i < |jobs| && jobs[i].schedule.At?
  }

  /** The tick starts its next job, or ends by saving and arming. */
  function Proceed(l: Life, t: TimerTask, now: int): Life
    requires t.Ticking? && l.memory.Some?
  {
    if t.done < |t.due| then
      l.(task := t, clock := now,
         fired := l.fired + if OneShot(l.memory.value, t.due[t.done]) then [t.due[t.done]] else [])
    else Armed(l, l.memory.value, now)
  }

  /** The event can happen: time does not run backwards, the timer's task is where the event needs it,
      and a new job gets a new id. */
  predicate Possible(l: Life, e: Event)
  {
    && e.now >= l.clock
    && match e
       case TimerFires(_) => l.task.Sleeping?
       case CallbackEnds(_) => l.task.Ticking? && l.task.done < |l.task.due|
       case Add(id, _, _, _) => id !in l.used
       case RunEnds(k, _) => k < |l.manual|
       case RunDropped(k, _) => k < |l.manual|
       case _ => true
  }

  function Follow(l: Life, e: Event, calendar: Calendar): Life
    requires Possible(l, e)
  {
    match e
    case Start(now) => Armed(l.(running := true), Recomputed(Store(l), now, calendar), now)
    case Stop(now) => l.(running := false, task := NoTask, clock := now)
    case Die(now) => l.(memory := None, running := false, task := NoTask, manual := [], clock := now)
    case TimerFires(now) =>
      Proceed(Loaded(l, now), Ticking(now, DueIds(Store(l), now), 0, now), now)
    case CallbackEnds(now) =>
      var t := l.task;
      Proceed(l.(memory := Some(Executed(Store(l), t.due[t.done], t.since, now, calendar))),
              t.(done := t.done + 1, since := now), now)
    case Add(id, schedule, deleteAfterRun, now) =>
      Armed(l.(used := l.used + {id}), Store(l) + [NewJob(id, schedule, deleteAfterRun, now, calendar)], now)
    case Remove(id, now) =>
      if Position(Store(l), id) == |Store(l)| then Loaded(l, now) else Armed(l, Without(Store(l), id), now)
    case Enable(id, enabled, now) =>
      if Position(Store(l), id) == |Store(l)| then Loaded(l, now)
      else Armed(l, Enabled(Store(l), id, enabled, now, calendar), now)
    case RunBegins(id, force, now) =>
      var i := Position(Store(l), id);
      if i < |Store(l)| && (force || Store(l)[i].enabled)
      then Loaded(l, now).(manual := l.manual + [Manual(id, now)]) else Loaded(l, now)
    case RunEnds(k, now) =>
      Armed(l.(manual := l.manual[..k] + l.manual[k + 1..]),
            Executed(Store(l), l.manual[k].id, l.manual[k].since, now, calendar), now)
    case RunDropped(k, now) => l.(manual := l.manual[..k] + l.manual[k + 1..], clock := now)
  }

  // ---- Executing and waking --------------------------------------------------------------------


  lemma {:induction false} WithoutUnique(jobs: seq<Job>, id: string)
    requires UniqueIds(jobs)
    ensures UniqueIds(Without(jobs, id)) && |Without(jobs, id)| <= |jobs|
  {
    if jobs != [] {
      WithoutUnique(jobs[1..], id);
      var rest := Without(jobs[1..], id);
      forall k | 0 <= k < |rest| ensures rest[k].id != jobs[0].id { assert rest[k] in jobs[1..]; }
    }
  }

  lemma ExecutedUnique(jobs: seq<Job>, id: string, start: int, now: int, calendar: Calendar)
    requires UniqueIds(jobs)
    ensures UniqueIds(Executed(jobs, id, start, now, calendar))
    ensures forall j :: j in Executed(jobs, id, start, now, calendar) && j.id != id ==> j in jobs
    ensures forall j :: j in jobs && j.id != id ==> j in Executed(jobs, id, start, now, calendar)
    ensures forall j :: j in Executed(jobs, id, start, now, calendar) && j.id == id ==>
              (j.schedule.At? ==> !j.enabled) && (!j.schedule.At? ==> j.next == NextRun(j.schedule, now, calendar))
  {
    WithoutUnique(jobs, id);
    var i := Position(jobs, id);
    var r := Executed(jobs, id, start, now, calendar);
    if i < |jobs| && !(jobs[i].schedule.At? && jobs[i].deleteAfterRun) {
      assert forall k :: 0 <= k < |jobs| && k != i ==> r[k] == jobs[k];
      forall j | j in jobs && j.id != id ensures j in r {
        var k :| 0 <= k < |jobs| && jobs[k] == j;
        assert r[k] == j;
      }
    }
  }

  lemma {:induction false} DueIdsExactly(jobs: seq<Job>, now: int)
    ensures forall id :: id in DueIds(jobs, now) <==> exists k :: 0 <= k < |jobs| && Due(jobs[k], now) && jobs[k].id == id
    ensures UniqueIds(jobs) ==> Distinct(DueIds(jobs, now))
  {
    if jobs != [] {
      var front, last := jobs[..|jobs| - 1], jobs[|jobs| - 1];
      DueIdsExactly(front, now);
      assert forall k :: 0 <= k < |front| ==> jobs[k] == front[k];
      if UniqueIds(jobs) {
        assert UniqueIds(front);
        assert last.id !in DueIds(front, now);
      }
    }
  }

  /** The earliest planned time among enabled jobs. */
  predicate EarliestPlan(jobs: seq<Job>, wake: Option<int>)
  {
    if wake.None? then forall i :: 0 <= i < |jobs| ==> !Planned(jobs[i])
    else && (exists i :: 0 <= i < |jobs| && Planned(jobs[i]) && jobs[i].next == wake)
         && (forall i :: 0 <= i < |jobs| && Planned(jobs[i]) ==> jobs[i].next.value >= wake.value)
  }

  /** `_get_next_wake_ms`. */
  function Wake(jobs: seq<Job>): Option<int>
  {
    if jobs == [] then None
    else
      var earlier, j := Wake(jobs[..|jobs| - 1]), jobs[|jobs| - 1];
      if Planned(j) && (earlier.None? || j.next.value < earlier.value) then j.next else earlier
  }

  lemma {:induction false} WakeIsEarliest(jobs: seq<Job>)
    ensures EarliestPlan(jobs, Wake(jobs))
  {
    if jobs != [] {
      var front := jobs[..|jobs| - 1];
      WakeIsEarliest(front);
      assert jobs == front + [jobs[|jobs| - 1]];
      if Wake(jobs) == Wake(front) && Wake(front).Some? {
        var k :| 0 <= k < |front| && Planned(front[k]) && front[k].next == Wake(front);
        assert jobs[k] == front[k];
      }
    }
  }

  class CronService {
    const calendar: Calendar
    /** `_store`, when it is loaded. */
    var store: Option<seq<Job>>
    var disk: seq<Job>
    var running: bool
    var task: TimerTask
    ghost var manual: seq<Manual>
    ghost var fired: seq<string>
    ghost var clock: int
    ghost var used: set<string>

    constructor (calendar: Calendar)
      ensures this.calendar == calendar && Now() == BORN
    {
      this.calendar, store, disk, running, task := calendar, None, [], false, NoTask;
      manual, fired, clock, used := [], [], 0, {};
    }

    ghost function Now(): Life
      reads this
    {
      Life(disk, store, running, task, manual, fired, clock, used)
    }

    method LoadStore() returns (jobs: seq<Job>)
      modifies this`store
      ensures jobs == Store(old(Now())) && Now() == old(Now()).(memory := Some(jobs))
    {
      if store.None? { store := Some(disk); }
      jobs := store.value;
    }

    method GetNextWake() returns (wake: Option<int>)
      requires store.Some?
      ensures wake == Wake(store.value) && EarliestPlan(store.value, wake)
    {
      wake := None;
      var jobs, i := store.value, 0;
      while i < |jobs|
        invariant i <= |jobs| && wake == Wake(jobs[..i])
      {
        assert jobs[..i + 1][..i] == jobs[..i];
        if Planned(jobs[i]) && (wake.None? || jobs[i].next.value < wake.value) { wake := jobs[i].next; }
        i := i + 1;
      }
      assert jobs[..i] == jobs;
      WakeIsEarliest(jobs);
    }

    /** Whatever the timer's task was doing is cancelled; a running service sleeps until the earliest
        planned time. */
    method ArmTimer()
      requires store.Some?
      modifies this`task
      ensures task == Asleep(store.value, running)
      ensures running && task.Sleeping? ==> EarliestPlan(store.value, Some(task.wake))
      ensures running && !task.Sleeping? ==> forall j :: j in store.value ==> !Planned(j)
    {
      task := NoTask;
      var wake := GetNextWake();
      if wake.None? || !running { return; }
      task := Sleeping(wake.value);
    }

    method SaveAndArm(ghost now: int)
      requires store.Some?
      modifies this`disk, this`task, this`clock
      ensures Now() == Armed(old(Now()), store.value, now)
    {
      disk := store.value;
      clock := now;
      ArmTimer();
    }

    method ExecuteJob(id: string, start: int, now: int)
      requires store.Some?
      modifies this`store
      ensures store == Some(Executed(old(store).value, id, start, now, calendar))
    {
      var jobs := store.value;
      var i := Position(jobs, id);
      if i == |jobs| { return; }
      var job := jobs[i].(lastRun := Some(start));
      if job.schedule.At? {
        if job.deleteAfterRun {
          store := Some(Without(jobs, id));
        } else {
          store := Some(jobs[i := job.(enabled := false, next := None)]);
        }
      } else {
        store := Some(jobs[i := job.(next := NextRun(job.schedule, now, calendar))]);
      }
    }

    /** The tick goes on to its next job and waits for it, or ends. */
    method NextDue(t: TimerTask, now: int)
      requires t.Ticking? && store.Some?
      modifies this`disk, this`task, this`fired, this`clock
      ensures Now() == Proceed(old(Now()), t, now)
    {
      if t.done < |t.due| {
        task := t;
        clock := now;
        fired := fired + if OneShot(store.value, t.due[t.done]) then [t.due[t.done]] else [];
      } else {
        SaveAndArm(now);
      }
    }

    /** The tick begins: what is due now is listed, and the first of it started. */
    method OnTimer(now: int)
      requires Possible(Now(), TimerFires(now))
      modifies this
      ensures Now() == Follow(old(Now()), TimerFires(now), calendar)
    {
      var jobs := LoadStore();
      NextDue(Ticking(now, DueIds(jobs, now), 0, now), now);
    }

    /** The awaited callback came back: its job is written down in memory and the tick goes on. */
    method CallbackEnds(now: int)
      requires Possible(Now(), Event.CallbackEnds(now)) && store.Some?
      modifies this
      ensures Now() == Follow(old(Now()), Event.CallbackEnds(now), calendar)
    {
      ExecuteJob(task.due[task.done], task.since, now);
      NextDue(task.(done := task.done + 1, since := now), now);
    }

    /** Starting plans every enabled job afresh. */
    method Start(now: int)
      requires Possible(Now(), Event.Start(now))
      modifies this
      ensures Now() == Follow(old(Now()), Event.Start(now), calendar)
    {
      running := true;
      var loaded := LoadStore();
      var jobs, i := loaded, 0;
      while i < |jobs|
        invariant i <= |jobs| == |loaded|
        invariant forall k :: 0 <= k < i ==> jobs[k] == Replanned(loaded[k], now, calendar)
        invariant forall k :: i <= k < |jobs| ==> jobs[k] == loaded[k]
      {
        if jobs[i].enabled { jobs := jobs[i := jobs[i].(next := NextRun(jobs[i].schedule, now, calendar))]; }
        i := i + 1;
      }
      assert jobs == Recomputed(loaded, now, calendar);
      store := Some(jobs);
      SaveAndArm(now);
    }

    method Stop(ghost now: int)
      requires Possible(Now(), Event.Stop(now))
      modifies this`running, this`task, this`clock
      ensures Now() == Follow(old(Now()), Event.Stop(now), calendar)
    {
      running, task := false, NoTask;
      clock := now;
    }

    method EnableJob(id: string, enabled: bool, now: int) returns (found: bool)
      requires Possible(Now(), Enable(id, enabled, now))
      modifies this
      ensures found <==> Position(Store(old(Now())), id) < |Store(old(Now()))|
      ensures Now() == Follow(old(Now()), Enable(id, enabled, now), calendar)
    {
      var jobs := LoadStore();
      clock := now;
      var i := Position(jobs, id);
      if i == |jobs| { return false; }
      store := Some(jobs[i := jobs[i].(enabled := enabled,
                                       next := if enabled then NextRun(jobs[i].schedule, now, calendar) else None)]);
      SaveAndArm(now);
      return true;
    }

    /** A manual run starts its job when that is enabled or forced, and waits for its callback. */
    method RunJob(id: string, force: bool, now: int) returns (started: bool)
      requires Possible(Now(), RunBegins(id, force, now))
      modifies this
      ensures Now() == Follow(old(Now()), RunBegins(id, force, now), calendar)
      ensures started <==> |manual| == |old(manual)| + 1
    {
      var jobs := LoadStore();
      clock := now;
      var i := Position(jobs, id);
      if i == |jobs| { return false; }
      if !force && !jobs[i].enabled { return false; }
      manual := manual + [Manual(id, now)];
      return true;
    }

    /** The callback of a manual run came back. */
    method RunJobEnds(ghost k: nat, id: string, start: int, now: int)
      requires Possible(Now(), RunEnds(k, now)) && manual[k] == Manual(id, start)
      modifies this
      ensures Now() == Follow(old(Now()), RunEnds(k, now), calendar)
    {
      var jobs := LoadStore();
      ExecuteJob(id, start, now);
      manual := manual[..k] + manual[k + 1..];
      SaveAndArm(now);
    }

    method AddJob(id: string, schedule: Schedule, deleteAfterRun: bool, now: int)
      requires Possible(Now(), Add(id, schedule, deleteAfterRun, now))
      modifies this
      ensures Now() == Follow(old(Now()), Add(id, schedule, deleteAfterRun, now), calendar)
    {
      var jobs := LoadStore();
      used := used + {id};
      store := Some(jobs + [NewJob(id, schedule, deleteAfterRun, now, calendar)]);
      SaveAndArm(now);
    }

    method RemoveJob(id: string, now: int) returns (removed: bool)
      requires Possible(Now(), Remove(id, now))
      modifies this
      ensures removed <==> Position(Store(old(Now())), id) < |Store(old(Now()))|
      ensures Now() == Follow(old(Now()), Remove(id, now), calendar)
      ensures forall j :: j in store.GetOr([]) <==> j in Store(old(Now())) && j.id != id
    {
      var jobs := LoadStore();
      clock := now;
      var kept := Without(jobs, id);
      removed := |kept| < |jobs|;
      WithoutNone(jobs, id);
      if removed {
        store := Some(kept);
        SaveAndArm(now);
      }
    }
  }

  lemma {:induction false} WithoutNone(jobs: seq<Job>, id: string)
    ensures |Without(jobs, id)| <= |jobs|
    ensures |Without(jobs, id)| == |jobs| <==> forall j :: j in jobs ==> j.id != id
    ensures |Without(jobs, id)| == |jobs| <==> Position(jobs, id) == |jobs|
  {
    if jobs != [] {
      WithoutNone(jobs[1..], id);
      assert jobs == [jobs[0]] + jobs[1..];
    }
  }
}
