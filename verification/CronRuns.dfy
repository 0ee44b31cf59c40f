/** Whole lives of the scheduler: ticks, callbacks, calls from other turns, stops and deaths in any
    order, with a clock that never runs backwards. A one-shot job is fired by the timer at most once
    exactly as long as no call arms the timer while such a job's callback is awaited. */
module CronRuns {
  import opened Common
  import opened Cron

  function Live(l: Life, events: seq<Event>, calendar: Calendar): Life
    requires AllPossible(l, events, calendar)
    decreases |events|
  {
    if events == [] then l else Live(Follow(l, events[0], calendar), events[1..], calendar)
  }

  predicate AllPossible(l: Life, events: seq<Event>, calendar: Calendar)
    decreases |events|
  {
    events == [] || (Possible(l, events[0]) && AllPossible(Follow(l, events[0], calendar), events[1..], calendar))
  }

  /** The timer's task waits for the callback of this job. */
  predicate Awaits(t: TimerTask, id: string)
  {
    t.Ticking? && t.done < |t.due| && t.due[t.done] == id
  }

  /** The guard a caller can check: the call arms the timer while a one-shot job's timer callback is
      awaited, and is no call that takes that very job off the plan. */
  predicate Interrupts(l: Life, e: Event)
    requires Possible(l, e)
  {
    && l.task.Ticking? && l.task.done < |l.task.due|
    && var x := l.task.due[l.task.done];
       && OneShot(Store(l), x)
       && match e
          case Add(_, _, _, _) => true
          case Remove(id, _) => id != x && Position(Store(l), id) < |Store(l)|
          case Enable(id, _, _) => id != x && Position(Store(l), id) < |Store(l)|
          case RunEnds(k, _) => l.manual[k].id != x
          case _ => false
  }

  predicate Uninterrupted(l: Life, events: seq<Event>, calendar: Calendar)
    requires AllPossible(l, events, calendar)
    decreases |events|
  {
    events == []
    || (!Interrupts(l, events[0]) && Uninterrupted(Follow(l, events[0], calendar), events[1..], calendar))
  }

  // ---- What holds in every life ------------------------------------------------------------------

  /** A fired job is a one-shot whose time has passed, so that planning it again finds nothing; and a
      one-shot job is only ever planned for its own time. */
  predicate Tidy(j: Job, fired: seq<string>, clock: int)
  {
    && (j.id in fired ==> j.schedule.At? && j.schedule.ms.Some? && j.schedule.ms.value <= clock)
    && (j.schedule.At? && j.next.Some? ==> j.next == j.schedule.ms)
  }

  ghost predicate Kept(jobs: seq<Job>, fired: seq<string>, clock: int, used: set<string>)
  {
    UniqueIds(jobs) && forall j :: j in jobs ==> j.id in used && Tidy(j, fired, clock)
  }

  predicate Expected(jobs: seq<Job>, id: string, now: int)
  {
    exists i :: 0 <= i < |jobs| && jobs[i].id == id && Due(jobs[i], now)
  }

  /** What is left of a tick: everything still listed was and is due, and nothing else is. */
  ghost predicate InTick(t: TimerTask, jobs: seq<Job>, fired: seq<string>, clock: int)
    requires t.Ticking?
  {
    && t.done < |t.due| && Distinct(t.due) && t.now <= clock
    && (forall k :: t.done <= k < |t.due| ==> Expected(jobs, t.due[k], t.now))
    && (forall j :: j in jobs && !j.schedule.Expression? && Due(j, t.now) ==> j.id in t.due[t.done..])
    && (OneShot(jobs, t.due[t.done]) ==> t.due[t.done] in fired)
  }

  /** Disk and memory tell one schedule for one id. */
  ghost predicate Agree(disk: seq<Job>, memory: seq<Job>)
  {
    forall a, b :: a in disk && b in memory && a.id == b.id ==> a.schedule == b.schedule
  }

  ghost predicate Sound(l: Life)
  {
    && (forall id :: id in l.fired ==> id in l.used)
    && Kept(l.disk, l.fired, l.clock, l.used)
    && (l.memory.Some? ==> Kept(l.memory.value, l.fired, l.clock, l.used) && Agree(l.disk, l.memory.value))
    && (l.running ==> l.memory.Some?) && (!l.running ==> l.task.NoTask?)
    && (l.running && !l.task.Ticking? ==> l.task == Asleep(l.memory.value, true))
    && (l.task.Ticking? ==> InTick(l.task, l.memory.value, l.fired, l.clock))
  }

  lemma KeptLater(jobs: seq<Job>, fired: seq<string>, clock: int, clock': int, used: set<string>, used': set<string>)
    requires Kept(jobs, fired, clock, used) && clock' >= clock && used <= used'
    ensures Kept(jobs, fired, clock', used')
  {}

  lemma UniqueJob(jobs: seq<Job>, a: Job, b: Job)
    requires UniqueIds(jobs) && a in jobs && b in jobs && a.id == b.id
    ensures a == b && Position(jobs, a.id) < |jobs| && jobs[Position(jobs, a.id)] == a
  {}

  /** Executing a job at a moment that has come. */
  lemma ExecutedKept(jobs: seq<Job>, id: string, start: int, now: int, calendar: Calendar,
                     fired: seq<string>, clock: int, used: set<string>)
    requires Kept(jobs, fired, clock, used) && now >= clock
    ensures Kept(Executed(jobs, id, start, now, calendar), fired, now, used)
    ensures forall j :: j in Executed(jobs, id, start, now, calendar) && j.id == id && j.schedule.At? ==> !Planned(j)
    ensures forall j :: j in Executed(jobs, id, start, now, calendar) && j.id == id && j.schedule.Every? ==>
              !Due(j, now)
  {
    ExecutedUnique(jobs, id, start, now, calendar);
    var r := Executed(jobs, id, start, now, calendar);
    forall j | j in r ensures j.id in used && Tidy(j, fired, now) {
      if j.id != id { assert j in jobs; }
      else { ExecutedFrom(jobs, id, start, now, calendar, j); }
    }
  }

  lemma ExecutedFrom(jobs: seq<Job>, id: string, start: int, now: int, calendar: Calendar, j: Job)
    requires UniqueIds(jobs) && j in Executed(jobs, id, start, now, calendar) && j.id == id
    ensures var i := Position(jobs, id);
            i < |jobs| && jobs[i].schedule == j.schedule && (j.schedule.At? ==> j.next == None)
  {}

  /** The fired list may grow by a job whose time has come. */
  lemma KeptFires(jobs: seq<Job>, fired: seq<string>, clock: int, used: set<string>, j: Job)
    requires Kept(jobs, fired, clock, used) && (forall i :: i in jobs && i.id == j.id ==> i.schedule == j.schedule)
    requires j.schedule.At? && j.schedule.ms.Some? && j.schedule.ms.value <= clock
    ensures Kept(jobs, fired + [j.id], clock, used)
  {}

  lemma SomeoneDue(t: TimerTask, jobs: seq<Job>, k: nat) returns (j: Job)
    requires t.Ticking? && UniqueIds(jobs) && k < |t.due|
    requires Expected(jobs, t.due[k], t.now)
    ensures j in jobs && j.id == t.due[k] && Due(j, t.now) && (OneShot(jobs, t.due[k]) <==> j.schedule.At?)
  {
    var i :| 0 <= i < |jobs| && jobs[i].id == t.due[k] && Due(jobs[i], t.now);
    j := jobs[i];
    UniqueJob(jobs, j, j);
  }

  /** Between two jobs of a tick. */
  ghost predicate Between(l: Life, t: TimerTask, now: int)
  {
    && t.Ticking? && l.memory.Some? && l.running && now >= l.clock
    && (forall id :: id in l.fired ==> id in l.used)
    && Kept(l.disk, l.fired, l.clock, l.used) && Kept(l.memory.value, l.fired, l.clock, l.used)
    && Agree(l.disk, l.memory.value)
    && t.done <= |t.due| && Distinct(t.due) && t.now <= now
    && (forall k :: t.done <= k < |t.due| ==> Expected(l.memory.value, t.due[k], t.now))
    && (forall j :: j in l.memory.value && !j.schedule.Expression? && Due(j, t.now) ==> j.id in t.due[t.done..])
  }

  lemma ProceedSound(l: Life, t: TimerTask, now: int)
    requires Between(l, t, now)
    ensures Sound(Proceed(l, t, now))
  {
    var jobs := l.memory.value;
    KeptLater(jobs, l.fired, l.clock, now, l.used, l.used);
    KeptLater(l.disk, l.fired, l.clock, now, l.used, l.used);
    if t.done < |t.due| {
      var j := SomeoneDue(t, jobs, t.done);
      if j.schedule.At? {
        forall i | i in jobs && i.id == j.id ensures i == j { UniqueJob(jobs, i, j); }
        KeptFires(jobs, l.fired, now, l.used, j);
        KeptFires(l.disk, l.fired, now, l.used, j);
      }
    }
  }

  lemma FiresSound(l: Life, e: Event, calendar: Calendar)
    requires Sound(l) && Possible(l, e) && e.TimerFires?
    ensures Between(Loaded(l, e.now), Ticking(e.now, DueIds(Store(l), e.now), 0, e.now), e.now)
    ensures Sound(Follow(l, e, calendar))
  {
    var jobs := Store(l);
    var due := DueIds(jobs, e.now);
    DueIdsExactly(jobs, e.now);
    assert due[0..] == due;
    forall k | 0 <= k < |due| ensures Expected(jobs, due[k], e.now) { assert due[k] in due; }
    KeptLater(jobs, l.fired, l.clock, e.now, l.used, l.used);
    KeptLater(l.disk, l.fired, l.clock, e.now, l.used, l.used);
    ProceedSound(Loaded(l, e.now), Ticking(e.now, due, 0, e.now), e.now);
  }

  /** The state and the task with which a tick goes on after a callback. */
  function Executing(l: Life, e: Event, calendar: Calendar): Life
    requires Possible(l, e) && e.CallbackEnds?
  {
    l.(memory := Some(Executed(Store(l), l.task.due[l.task.done], l.task.since, e.now, calendar)))
  }

  /** A job of the store is executed: schedules stay what they were. */
  lemma ExecutedAgrees(disk: seq<Job>, jobs: seq<Job>, id: string, start: int, now: int, calendar: Calendar)
    requires Agree(disk, jobs) && UniqueIds(jobs)
    ensures Agree(disk, Executed(jobs, id, start, now, calendar))
  {
    var r := Executed(jobs, id, start, now, calendar);
    ExecutedUnique(jobs, id, start, now, calendar);
    forall a, b | a in disk && b in r && a.id == b.id ensures a.schedule == b.schedule {
      if b.id == id { ExecutedFrom(jobs, id, start, now, calendar, b); } else { assert b in jobs; }
    }
  }

  /** Executing the awaited job of a tick leaves due exactly the jobs listed after it. */
  lemma ExecutedPending(t: TimerTask, jobs: seq<Job>, now: int, calendar: Calendar)
    requires t.Ticking? && t.done < |t.due| && Distinct(t.due) && UniqueIds(jobs) && t.now <= now
    requires forall k :: t.done <= k < |t.due| ==> Expected(jobs, t.due[k], t.now)
    requires forall j :: j in jobs && !j.schedule.Expression? && Due(j, t.now) ==> j.id in t.due[t.done..]
    ensures var r := Executed(jobs, t.due[t.done], t.since, now, calendar);
            && (forall k :: t.done + 1 <= k < |t.due| ==> Expected(r, t.due[k], t.now))
            && (forall j :: j in r && !j.schedule.Expression? && Due(j, t.now) ==> j.id in t.due[t.done + 1..])
  {
    var id := t.due[t.done];
    var r := Executed(jobs, id, t.since, now, calendar);
    ExecutedUnique(jobs, id, t.since, now, calendar);
    hide Executed, UniqueIds;
    forall k | t.done + 1 <= k < |t.due| ensures Expected(r, t.due[k], t.now) {
      var j := SomeoneDue(t, jobs, k);
      assert j in r;
    }
    forall j | j in r && !j.schedule.Expression? && Due(j, t.now) ensures j.id in t.due[t.done + 1..] {
      assert j.id != id;
      assert t.due[t.done..] == [id] + t.due[t.done + 1..];
    }
  }

  lemma EndsSound(l: Life, e: Event, calendar: Calendar)
    requires Sound(l) && Possible(l, e) && e.CallbackEnds?
    ensures Between(Executing(l, e, calendar).(clock := e.now), l.task.(done := l.task.done + 1, since := e.now), e.now)
    ensures Sound(Follow(l, e, calendar))
  {
    var t, jobs := l.task, l.memory.value;
    var id := t.due[t.done];
    var r := Executed(jobs, id, t.since, e.now, calendar);
    var t' := t.(done := t.done + 1, since := e.now);
    ExecutedKept(jobs, id, t.since, e.now, calendar, l.fired, l.clock, l.used);
    KeptLater(l.disk, l.fired, l.clock, e.now, l.used, l.used);
    ExecutedAgrees(l.disk, jobs, id, t.since, e.now, calendar);
    ExecutedPending(t, jobs, e.now, calendar);
    hide Executed, Kept, UniqueIds, Agree, Asleep, Due, Expected;
    var l' := Executing(l, e, calendar).(clock := e.now);
    hide Sound;
    ProceedSound(l', t', e.now);
    assert Follow(l, e, calendar) == Proceed(l', t', e.now);
  }

  /** A call that saves and arms. */
  lemma ArmedSound(l: Life, jobs: seq<Job>, now: int)
    requires (forall id :: id in l.fired ==> id in l.used) && Kept(jobs, l.fired, now, l.used)
    ensures Sound(Armed(l, jobs, now))
  {
    forall a, b | a in jobs && b in jobs && a.id == b.id ensures a == b { UniqueJob(jobs, a, b); }
  }

  lemma StoreKept(l: Life, now: int)
    requires Sound(l) && now >= l.clock
    ensures Kept(Store(l), l.fired, now, l.used)
    ensures l.running ==> l.memory.Some?
  {
    KeptLater(Store(l), l.fired, l.clock, now, l.used, l.used);
  }

  lemma LoadedSound(l: Life, now: int)
    requires Sound(l) && now >= l.clock
    ensures Sound(Loaded(l, now))
  {
    KeptLater(Store(l), l.fired, l.clock, now, l.used, l.used);
    KeptLater(l.disk, l.fired, l.clock, now, l.used, l.used);
    forall a, b | l.memory.None? && a in l.disk && b in l.disk && a.id == b.id ensures a == b { UniqueJob(l.disk, a, b); }
  }

  lemma ReplannedKept(jobs: seq<Job>, fired: seq<string>, clock: int, used: set<string>, calendar: Calendar)
    requires Kept(jobs, fired, clock, used)
    ensures Kept(Recomputed(jobs, clock, calendar), fired, clock, used)
    ensures forall j :: j in Recomputed(jobs, clock, calendar) && j.schedule.At? && j.id in fired ==> !Planned(j)
  {
    var r := Recomputed(jobs, clock, calendar);
    forall i | 0 <= i < |r| ensures r[i].id == jobs[i].id && jobs[i] in jobs && Tidy(r[i], fired, clock) {}
  }

  lemma EnabledKept(jobs: seq<Job>, id: string, enabled: bool, fired: seq<string>, clock: int, used: set<string>,
                    calendar: Calendar)
    requires Kept(jobs, fired, clock, used)
    ensures Kept(Enabled(jobs, id, enabled, clock, calendar), fired, clock, used)
    ensures forall j :: j in Enabled(jobs, id, enabled, clock, calendar) && j.id == id && id in fired ==> !Planned(j)
    ensures forall j: Job :: j.id != id ==> (j in jobs <==> j in Enabled(jobs, id, enabled, clock, calendar))
  {
    var r := Enabled(jobs, id, enabled, clock, calendar);
    var i := Position(jobs, id);
    forall k | 0 <= k < |r| ensures r[k].id == jobs[k].id && jobs[k] in jobs && (k == i || r[k] == jobs[k]) {}
    forall j | j in jobs && j.id != id ensures j in r { var k :| 0 <= k < |jobs| && jobs[k] == j; assert r[k] == j; }
    if i < |jobs| { forall k | 0 <= k < |r| && r[k].id == id ensures k == i { UniqueJob(jobs, jobs[k], jobs[i]); } }
  }

  lemma WithoutKept(jobs: seq<Job>, id: string, fired: seq<string>, clock: int, used: set<string>)
    requires Kept(jobs, fired, clock, used)
    ensures Kept(Without(jobs, id), fired, clock, used)
  {
    WithoutUnique(jobs, id);
  }

  lemma AddedKept(jobs: seq<Job>, j: Job, fired: seq<string>, clock: int, used: set<string>)
    requires Kept(jobs, fired, clock, used) && j.id !in used && (forall id :: id in fired ==> id in used)
    requires j.schedule.At? && j.next.Some? ==> j.next == j.schedule.ms
    ensures Kept(jobs + [j], fired, clock, used + {j.id})
  {}

  /** Every event keeps what holds in every life. */
  lemma FollowSound(l: Life, e: Event, calendar: Calendar)
    requires Sound(l) && Possible(l, e)
    ensures Sound(Follow(l, e, calendar))
  {
    hide Executed, Kept, UniqueIds, InTick, Wake, Without, Enabled, NextRun;
    StoreKept(l, e.now);
    match e
    case Start(now) =>
      ReplannedKept(Store(l), l.fired, now, l.used, calendar);
      ArmedSound(l.(running := true), Recomputed(Store(l), now, calendar), now);
    case Stop(now) => HaltedSound(l, now);
    case Die(now) => HaltedSound(l, now);
    case TimerFires(_) => FiresSound(l, e, calendar);
    case CallbackEnds(_) => EndsSound(l, e, calendar);
    case Add(id, schedule, deleteAfterRun, now) =>
      AddedKept(Store(l), NewJob(id, schedule, deleteAfterRun, now, calendar), l.fired, now, l.used) by {
        PlannedForItself(schedule, now, calendar);
      }
      ArmedSound(l.(used := l.used + {id}), Store(l) + [NewJob(id, schedule, deleteAfterRun, now, calendar)], now);
    case Remove(id, now) =>
      LoadedSound(l, now);
      WithoutKept(Store(l), id, l.fired, now, l.used);
      ArmedSound(l, Without(Store(l), id), now);
    case Enable(id, enabled, now) =>
      LoadedSound(l, now);
      EnabledKept(Store(l), id, enabled, l.fired, now, l.used, calendar);
      ArmedSound(l, Enabled(Store(l), id, enabled, now, calendar), now);
    case RunBegins(_, _, now) => LoadedSound(l, now);
    case RunEnds(k, now) =>
      var m := l.manual[k];
      ExecutedKept(Store(l), m.id, m.since, now, calendar, l.fired, now, l.used);
      ArmedSound(l.(manual := l.manual[..k] + l.manual[k + 1..]), Executed(Store(l), m.id, m.since, now, calendar), now);
    case RunDropped(_, now) => WaitedSound(l, now);
  }

  lemma PlannedForItself(s: Schedule, now: int, calendar: Calendar)
    ensures s.At? && NextRun(s, now, calendar).Some? ==> NextRun(s, now, calendar) == s.ms
  {}

  lemma HaltedSound(l: Life, now: int)
    requires Sound(l) && now >= l.clock
    ensures Sound(l.(running := false, task := NoTask, clock := now))
    ensures Sound(l.(memory := None, running := false, task := NoTask, manual := [], clock := now))
  {
    KeptLater(Store(l), l.fired, l.clock, now, l.used, l.used);
    KeptLater(l.disk, l.fired, l.clock, now, l.used, l.used);
  }

  lemma WaitedSound(l: Life, now: int)
    requires Sound(l) && now >= l.clock
    ensures Sound(l.(clock := now))
  {
    KeptLater(Store(l), l.fired, l.clock, now, l.used, l.used);
    KeptLater(l.disk, l.fired, l.clock, now, l.used, l.used);
  }

  lemma {:induction false} LiveSound(l: Life, events: seq<Event>, calendar: Calendar)
    requires Sound(l) && AllPossible(l, events, calendar)
    ensures Sound(Live(l, events, calendar))
    decreases |events|
  {
    hide Sound, Follow, Possible;
    if events != [] {
      FollowSound(l, events[0], calendar);
      LiveSound(Follow(l, events[0], calendar), events[1..], calendar);
    }
  }

  lemma BornSound()
    ensures Sound(BORN)
  {}

  // ---- Fired once --------------------------------------------------------------------------------

  /** No job that was fired is still planned, but for the one whose callback is awaited. */
  ghost predicate Calm(l: Life)
  {
    l.running && l.memory.Some? ==>
      forall j :: j in l.memory.value && j.schedule.At? && Planned(j) && j.id in l.fired ==> Awaits(l.task, j.id)
  }

  ghost predicate Once(l: Life)
  {
    Sound(l) && Calm(l) && Distinct(l.fired)
  }

  /** A tick that goes on fires no job a second time, when no fired job but the last is planned. */
  lemma ProceedOnce(l: Life, t: TimerTask, now: int)
    requires Between(l, t, now) && Distinct(l.fired)
    requires forall j :: j in l.memory.value && j.schedule.At? && Planned(j) ==> j.id !in l.fired
    ensures Calm(Proceed(l, t, now)) && Distinct(Proceed(l, t, now).fired)
  {
    if t.done < |t.due| {
      var j := SomeoneDue(t, l.memory.value, t.done);
    }
  }

  lemma FiresOnce(l: Life, e: Event, calendar: Calendar)
    requires Once(l) && Possible(l, e) && e.TimerFires?
    ensures Calm(Follow(l, e, calendar)) && Distinct(Follow(l, e, calendar).fired)
  {
    FiresSound(l, e, calendar);
    hide Sound, Between, Wake, DueIds;
    ProceedOnce(Loaded(l, e.now), Ticking(e.now, DueIds(Store(l), e.now), 0, e.now), e.now) by { TimerRuns(l); }
  }

  lemma TimerRuns(l: Life)
    requires Sound(l) && !l.task.NoTask?
    ensures l.running && l.memory.Some?
  {}

  lemma EndsOnce(l: Life, e: Event, calendar: Calendar)
    requires Once(l) && Possible(l, e) && e.CallbackEnds?
    ensures Calm(Follow(l, e, calendar)) && Distinct(Follow(l, e, calendar).fired)
  {
    EndsSound(l, e, calendar);
    var t, jobs := l.task, l.memory.value;
    var id := t.due[t.done];
    ExecutedKept(jobs, id, t.since, e.now, calendar, l.fired, l.clock, l.used);
    ExecutedUnique(jobs, id, t.since, e.now, calendar);
    var l' := Executing(l, e, calendar).(clock := e.now);
    hide Executed, Kept, UniqueIds, Between, InTick, Wake;
    forall j | j in l'.memory.value && j.schedule.At? && Planned(j) ensures j.id !in l.fired {
      assert j.id != id;
      assert j in jobs;
    }
    ProceedOnce(l', t.(done := t.done + 1, since := e.now), e.now);
  }

  /** Arming leaves a fired job planned exactly when one of the new store is. */
  lemma ArmedCalm(l: Life, jobs: seq<Job>, now: int)
    ensures Calm(Armed(l, jobs, now)) <==>
            (l.running ==> forall j :: j in jobs && j.schedule.At? && Planned(j) ==> j.id !in l.fired)
  {}

  /** The one planned job that was fired, if there is one, is the awaited one. */
  lemma AwaitedIsPlanned(l: Life)
    requires Once(l) && l.running
    ensures forall j :: j in l.memory.value && j.schedule.At? && Planned(j) && j.id in l.fired ==>
              Awaits(l.task, j.id) && OneShot(Store(l), j.id)
    ensures l.task.Ticking? && OneShot(Store(l), l.task.due[l.task.done]) ==>
              exists j :: j in l.memory.value && j.id == l.task.due[l.task.done]
                          && j.schedule.At? && Planned(j) && j.id in l.fired
  {
    var jobs := l.memory.value;
    forall j | j in jobs && j.schedule.At? ensures OneShot(jobs, j.id) { UniqueJob(jobs, j, j); }
    if l.task.Ticking? {
      var j := SomeoneDue(l.task, jobs, l.task.done);
    }
  }

  /** A store in which only the job with this id may be off the plan, or a new job on it. */
  lemma ArmingInterrupts(l: Life, used: set<string>, manual: seq<Manual>, jobs: seq<Job>, now: int, id: string)
    requires Once(l)
    requires l.running ==> forall j: Job :: j.id != id ==> (j in jobs <==> j in l.memory.value)
    requires forall j :: j in jobs && j.id == id && j.schedule.At? && Planned(j) ==> id !in l.fired
    ensures Calm(Armed(l.(used := used, manual := manual), jobs, now)) <==>
            !(l.task.Ticking? && OneShot(Store(l), l.task.due[l.task.done]) && l.task.due[l.task.done] != id)
  {
    if l.running {
      AwaitedIsPlanned(l);
      ArmedCalm(l.(used := used, manual := manual), jobs, now);
    }
  }

  lemma AddExactly(l: Life, e: Event, calendar: Calendar)
    requires Once(l) && Possible(l, e) && e.Add?
    ensures Calm(Follow(l, e, calendar)) <==> !Interrupts(l, e)
  {
    var jobs := Store(l) + [NewJob(e.id, e.schedule, e.deleteAfterRun, e.now, calendar)];
    ArmingInterrupts(l, l.used + {e.id}, l.manual, jobs, e.now, e.id);
    if l.task.Ticking? { var j := SomeoneDue(l.task, l.memory.value, l.task.done); }
  }

  lemma RemoveExactly(l: Life, e: Event, calendar: Calendar)
    requires Once(l) && Possible(l, e) && e.Remove?
    ensures Calm(Follow(l, e, calendar)) <==> !Interrupts(l, e)
  {
    if Position(Store(l), e.id) < |Store(l)| {
      ArmingInterrupts(l, l.used, l.manual, Without(Store(l), e.id), e.now, e.id);
    }
  }

  lemma EnableExactly(l: Life, e: Event, calendar: Calendar)
    requires Once(l) && Possible(l, e) && e.Enable?
    ensures Calm(Follow(l, e, calendar)) <==> !Interrupts(l, e)
  {
    StoreKept(l, e.now);
    EnabledKept(Store(l), e.id, e.enabled, l.fired, e.now, l.used, calendar);
    hide Kept, Enabled, Wake;
    if Position(Store(l), e.id) < |Store(l)| {
      ArmingInterrupts(l, l.used, l.manual, Enabled(Store(l), e.id, e.enabled, e.now, calendar), e.now, e.id);
    }
  }

  lemma RunEndsExactly(l: Life, e: Event, calendar: Calendar)
    requires Once(l) && Possible(l, e) && e.RunEnds?
    ensures Calm(Follow(l, e, calendar)) <==> !Interrupts(l, e)
  {
    StoreKept(l, e.now);
    var m := l.manual[e.k];
    ExecutedKept(Store(l), m.id, m.since, e.now, calendar, l.fired, e.now, l.used);
    ExecutedUnique(Store(l), m.id, m.since, e.now, calendar);
    hide Kept, Executed, Wake, UniqueIds;
    ArmingInterrupts(l, l.used, l.manual[..e.k] + l.manual[e.k + 1..],
                     Executed(Store(l), m.id, m.since, e.now, calendar), e.now, m.id);
  }

  /** One event after a history in which every job was fired at most once: no job is fired twice by it,
      and none can be fired again without a further interruption exactly when it interrupts nothing. */
  lemma FollowOnce(l: Life, e: Event, calendar: Calendar)
    requires Once(l) && Possible(l, e)
    ensures Sound(Follow(l, e, calendar)) && Distinct(Follow(l, e, calendar).fired)
    ensures Calm(Follow(l, e, calendar)) <==> !Interrupts(l, e)
  {
    FollowSound(l, e, calendar);
    hide Sound, Wake, Executed, Without, Enabled;
    match e
    case Start(now) =>
      StoreKept(l, now);
      ReplannedKept(Store(l), l.fired, now, l.used, calendar);
    case TimerFires(_) => FiresOnce(l, e, calendar);
    case CallbackEnds(_) => EndsOnce(l, e, calendar);
    case Add(_, _, _, _) => AddExactly(l, e, calendar);
    case Remove(_, _) => RemoveExactly(l, e, calendar);
    case Enable(_, _, _) => EnableExactly(l, e, calendar);
    case RunEnds(_, _) => RunEndsExactly(l, e, calendar);
    case _ => StoreKept(l, e.now);
  }

  lemma {:induction false} LiveOnce(l: Life, events: seq<Event>, calendar: Calendar)
    requires Once(l) && AllPossible(l, events, calendar) && Uninterrupted(l, events, calendar)
    ensures Once(Live(l, events, calendar))
    decreases |events|
  {
    hide Follow, Possible, Interrupts, Sound, Calm;
    if events != [] {
      FollowOnce(l, events[0], calendar);
      LiveOnce(Follow(l, events[0], calendar), events[1..], calendar);
    }
  }

  lemma BornOnce()
    ensures Once(BORN)
  {}

  /** However the service starts, stops, dies and is told to enable and run jobs again: as long as no
      call interrupts a one-shot's callback, the timer fires a one-shot job at most once, and never
      before its time. */
  lemma FiredAtMostOnce(events: seq<Event>, calendar: Calendar)
    requires AllPossible(BORN, events, calendar) && Uninterrupted(BORN, events, calendar)
    ensures var l := Live(BORN, events, calendar);
            && Distinct(l.fired)
            && forall j :: j in Store(l) && j.id in l.fired ==> j.schedule.At? && j.schedule.ms.GetOr(0) <= l.clock
  {
    hide Live;
    BornOnce();
    LiveOnce(BORN, events, calendar);
  }

  // ---- Fired twice -------------------------------------------------------------------------------

  /** A history from here on that interrupts nothing. */
  ghost predicate Quiet(l: Life, events: seq<Event>, calendar: Calendar)
  {
    AllPossible(l, events, calendar) && Uninterrupted(l, events, calendar)
  }

  ghost predicate FiresTwice(l: Life, events: seq<Event>, calendar: Calendar)
  {
    Quiet(l, events, calendar) && !Distinct(Live(l, events, calendar).fired)
  }

  /** A history is its first event and what follows. */
  lemma First(l: Life, e: Event, more: seq<Event>, calendar: Calendar)
    requires Possible(l, e) && AllPossible(Follow(l, e, calendar), more, calendar)
    ensures AllPossible(l, [e] + more, calendar)
    ensures Live(l, [e] + more, calendar) == Live(Follow(l, e, calendar), more, calendar)
    ensures Uninterrupted(l, [e] + more, calendar) <==>
            !Interrupts(l, e) && Uninterrupted(Follow(l, e, calendar), more, calendar)
  {
    hide Follow, Possible, Interrupts;
    assert ([e] + more)[1..] == more;
  }

  lemma FiresTwiceLater(l: Life, e: Event, events: seq<Event>, calendar: Calendar)
    requires Possible(l, e) && !Interrupts(l, e) && FiresTwice(Follow(l, e, calendar), events, calendar)
    ensures FiresTwice(l, [e] + events, calendar)
  {
    hide Follow, Possible, Interrupts, Live, AllPossible, Uninterrupted;
    First(l, e, events, calendar);
  }

  lemma FiresTwiceNow(l: Life, e: Event, calendar: Calendar)
    requires Possible(l, e) && !Interrupts(l, e) && !Distinct(Follow(l, e, calendar).fired)
    ensures FiresTwice(l, [e], calendar)
  {
    hide Follow, Possible, Interrupts;
    assert FiresTwice(Follow(l, e, calendar), [], calendar);
    FiresTwiceLater(l, e, [], calendar);
    assert [e] + [] == [e];
  }

  /** A fired one-shot that the running service still has on its plan, and does not wait for. */
  predicate Exposed(l: Life, x: Job)
  {
    && l.running && l.memory.Some? && x in l.memory.value
    && x.schedule.At? && Planned(x) && x.id in l.fired && !Awaits(l.task, x.id)
  }

  lemma Repeated(fired: seq<string>, id: string)
    requires id in fired
    ensures !Distinct(fired + [id])
  {
    var i :| 0 <= i < |fired| && fired[i] == id;
    assert (fired + [id])[i] == (fired + [id])[|fired|];
  }

  /** While the tick goes on, an exposed job stays exposed until its turn comes. */
  lemma EndsExposed(l: Life, x: Job, calendar: Calendar)
    requires Sound(l) && Exposed(l, x) && l.task.Ticking?
    ensures var e := CallbackEnds(l.clock);
            && Possible(l, e) && !Interrupts(l, e)
            && (Exposed(Follow(l, e, calendar), x)
                || (l.task.done + 1 < |l.task.due| && l.task.due[l.task.done + 1] == x.id
                    && !Distinct(Follow(l, e, calendar).fired)))
  {
    var e := CallbackEnds(l.clock);
    var jobs := l.memory.value;
    var id := l.task.due[l.task.done];
    EndsSound(l, e, calendar);
    ExecutedUnique(jobs, id, l.task.since, e.now, calendar);
    var r := Executed(jobs, id, l.task.since, e.now, calendar);
    hide Executed, Wake;
    assert x in r;
    UniqueJob(r, x, x);
    Repeated(l.fired, x.id);
  }

  lemma {:induction false} TurnComes(l: Life, x: Job, k: nat, calendar: Calendar) returns (events: seq<Event>)
    requires Sound(l) && Exposed(l, x) && l.task.Ticking?
    requires l.task.done < k < |l.task.due| && l.task.due[k] == x.id
    ensures FiresTwice(l, events, calendar)
    decreases k - l.task.done
  {
    var e := CallbackEnds(l.clock);
    EndsExposed(l, x, calendar);
    var l' := Follow(l, e, calendar);
    if l.task.done + 1 == k {
      assert Awaits(l'.task, x.id);
      FiresTwiceNow(l, e, calendar);
      events := [e];
    } else if !Distinct(l'.fired) {
      FiresTwiceNow(l, e, calendar);
      events := [e];
    } else {
      FollowSound(l, e, calendar);
      var more := TurnComes(l', x, k, calendar);
      FiresTwiceLater(l, e, more, calendar);
      events := [e] + more;
    }
  }

  /** The timer sleeps, and the exposed job is due. */
  lemma ExposedIsDue(l: Life, x: Job)
    requires Sound(l) && Exposed(l, x) && !l.task.Ticking?
    ensures l.task.Sleeping? && x.id in DueIds(l.memory.value, l.clock) && OneShot(l.memory.value, x.id)
  {
    var jobs := l.memory.value;
    WakeIsEarliest(jobs);
    var p :| 0 <= p < |jobs| && jobs[p] == x;
    DueIdsExactly(jobs, l.clock);
    assert Due(jobs[p], l.clock);
    UniqueJob(jobs, x, x);
  }

  /** So the next tick fires it again, after the jobs that are due before it. */
  lemma NextTickFires(l: Life, x: Job, calendar: Calendar) returns (events: seq<Event>)
    requires Sound(l) && Exposed(l, x) && !l.task.Ticking?
    ensures FiresTwice(l, events, calendar)
  {
    var e := TimerFires(l.clock);
    ExposedIsDue(l, x);
    FollowSound(l, e, calendar);
    Repeated(l.fired, x.id);
    hide Sound, Wake, DueIds, OneShot;
    var due := DueIds(l.memory.value, l.clock);
    var k :| 0 <= k < |due| && due[k] == x.id;
    var l' := Follow(l, e, calendar);
    assert l'.task == Ticking(l.clock, due, 0, l.clock) && l'.memory == l.memory && l.fired <= l'.fired;
    if due[0] == x.id {
      FiresTwiceNow(l, e, calendar);
      events := [e];
    } else {
      assert forall i :: 0 <= i < |l.fired| ==> l'.fired[i] == l.fired[i];
      var more := TurnComes(l', x, k, calendar);
      FiresTwiceLater(l, e, more, calendar);
      events := [e] + more;
    }
  }

  /** A job that can be fired again will be, if the service is only left running. */
  lemma {:induction false} ExposedFiresTwice(l: Life, x: Job, calendar: Calendar) returns (events: seq<Event>)
    requires Sound(l) && Exposed(l, x)
    ensures FiresTwice(l, events, calendar)
    decreases if l.task.Ticking? then |l.task.due| - l.task.done else 0
  {
    if !l.task.Ticking? {
      events := NextTickFires(l, x, calendar);
    } else {
      var e := CallbackEnds(l.clock);
      EndsExposed(l, x, calendar);
      FollowSound(l, e, calendar);
      var l' := Follow(l, e, calendar);
      if !Distinct(l'.fired) {
        FiresTwiceNow(l, e, calendar);
        events := [e];
      } else {
        var more := ExposedFiresTwice(l', x, calendar);
        FiresTwiceLater(l, e, more, calendar);
        events := [e] + more;
      }
    }
  }

  /** From here on no history without interruptions fires a one-shot job twice. */
  ghost predicate Safe(l: Life, calendar: Calendar)
  {
    forall more :: Quiet(l, more, calendar) ==> Distinct(Live(l, more, calendar).fired)
  }

  /** Left to itself from some moment on, the timer never fires a one-shot job twice exactly when it has
      not done so yet and no fired job is still planned without being awaited. */
  lemma SafeExactly(l: Life, calendar: Calendar)
    requires Sound(l)
    ensures Safe(l, calendar) <==> Distinct(l.fired) && Calm(l)
  {
    hide Sound, Follow, Possible, Interrupts;
    if Distinct(l.fired) && Calm(l) {
      forall more | Quiet(l, more, calendar) ensures Distinct(Live(l, more, calendar).fired) {
        LiveOnce(l, more, calendar);
      }
    } else if !Distinct(l.fired) {
      assert Quiet(l, [], calendar) && !Distinct(Live(l, [], calendar).fired);
    } else {
      var x :| x in l.memory.value && x.schedule.At? && Planned(x) && x.id in l.fired && !Awaits(l.task, x.id);
      var more := ExposedFiresTwice(l, x, calendar);
      assert Quiet(l, more, calendar) && !Distinct(Live(l, more, calendar).fired);
    }
  }

  /** After any history without interruptions, the next event lets a one-shot job be fired twice if and
      only if it arms the timer while such a job's callback is awaited. */
  lemma InterruptionExactly(events: seq<Event>, e: Event, calendar: Calendar)
    requires AllPossible(BORN, events, calendar) && Uninterrupted(BORN, events, calendar)
    requires Possible(Live(BORN, events, calendar), e)
    ensures var l := Follow(Live(BORN, events, calendar), e, calendar);
            (exists more :: FiresTwice(l, more, calendar)) <==> Interrupts(Live(BORN, events, calendar), e)
  {
    hide Live, Follow, Possible, Interrupts, Sound, Calm;
    BornOnce();
    LiveOnce(BORN, events, calendar);
    var l := Live(BORN, events, calendar);
    FollowOnce(l, e, calendar);
    var l' := Follow(l, e, calendar);
    SafeExactly(l', calendar);
    assert forall more :: FiresTwice(l', more, calendar) <==>
                          Quiet(l', more, calendar) && !Distinct(Live(l', more, calendar).fired);
  }

  /** Nor at any later moment of this history. */
  ghost predicate SafeThroughout(l: Life, events: seq<Event>, calendar: Calendar)
    requires AllPossible(l, events, calendar)
    decreases |events|
  {
    Safe(l, calendar) && (events == [] || SafeThroughout(Follow(l, events[0], calendar), events[1..], calendar))
  }

  lemma {:induction false} SafeThroughoutExactly(l: Life, events: seq<Event>, calendar: Calendar)
    requires Once(l) && AllPossible(l, events, calendar)
    ensures Uninterrupted(l, events, calendar) <==> SafeThroughout(l, events, calendar)
    decreases |events|
  {
    SafeExactly(l, calendar);
    hide Follow, Possible, Interrupts, Sound, Calm, Quiet, Live;
    if events != [] {
      var l' := Follow(l, events[0], calendar);
      FollowOnce(l, events[0], calendar);
      if Interrupts(l, events[0]) {
        SafeExactly(l', calendar);
        assert !Safe(l', calendar);
      } else {
        SafeThroughoutExactly(l', events[1..], calendar);
      }
    }
  }

  /** A history is free of interruptions if and only if at no moment of it a one-shot job has been, or
      left to itself could be, fired by the timer a second time. */
  lemma FiredOnceExactly(events: seq<Event>, calendar: Calendar)
    requires AllPossible(BORN, events, calendar)
    ensures Uninterrupted(BORN, events, calendar) <==> SafeThroughout(BORN, events, calendar)
  {
    BornOnce();
    SafeThroughoutExactly(BORN, events, calendar);
  }

  const REMINDER := Job("a", true, At(Some(10)), Some(10), false, None)
  const ANOTHER := Job("b", true, At(Some(100)), Some(100), false, None)

  /** The run, one state after the other. */
  const EMPTY := Life([], Some([]), true, NoTask, [], [], 0, {})
  const PLANNED := Life([REMINDER], Some([REMINDER]), true, Sleeping(10), [], [], 0, {"a"})
  const WAITING := PLANNED.(task := Ticking(10, ["a"], 0, 10), fired := ["a"], clock := 10)
  const CANCELLED := Life([REMINDER, ANOTHER], Some([REMINDER, ANOTHER]), true, Sleeping(10), [], ["a"], 11, {"a", "b"})
  const AGAIN := CANCELLED.(task := Ticking(12, ["a"], 0, 12), fired := ["a", "a"], clock := 12)

  lemma Reminders()
    ensures DueIds([REMINDER], 10) == ["a"] && Wake([]) == None && Wake([REMINDER]) == Some(10)
    ensures DueIds([REMINDER, ANOTHER], 12) == ["a"] && Wake([REMINDER, ANOTHER]) == Some(10)
    ensures OneShot([REMINDER], "a") && OneShot([REMINDER, ANOTHER], "a")
  {
    assert [REMINDER][..0] == [] && [REMINDER, ANOTHER][..1] == [REMINDER];
    ReminderDue(10);
    ReminderDue(12);
    assert DueIds([REMINDER, ANOTHER], 12) == DueIds([REMINDER], 12) + [];
  }

  lemma ReminderDue(now: int)
    requires now >= 10
    ensures DueIds([REMINDER], now) == ["a"]
  {
    var jobs := [REMINDER];
    assert jobs[..0] == [];
    assert DueIds(jobs, now) == DueIds(jobs[..0], now) + ["a"];
  }

  lemma Armings(calendar: Calendar)
    ensures Follow(BORN, Start(0), calendar) == EMPTY
    ensures Follow(EMPTY, Add("a", At(Some(10)), false, 0), calendar) == PLANNED
    ensures Follow(WAITING, Add("b", At(Some(100)), false, 11), calendar) == CANCELLED
  {
    Reminders();
    hide DueIds, Wake, OneShot;
    assert Recomputed([], 0, calendar) == [];
    assert [] + [REMINDER] == [REMINDER] && [REMINDER] + [ANOTHER] == [REMINDER, ANOTHER];
    assert {} + {"a"} == {"a"} && {"a"} + {"b"} == {"a", "b"};
  }

  lemma Firings(calendar: Calendar)
    ensures Follow(PLANNED, TimerFires(10), calendar) == WAITING
    ensures Follow(CANCELLED, TimerFires(12), calendar) == AGAIN
  {
    Reminders();
    hide DueIds, Wake, OneShot;
    assert [] + ["a"] == ["a"] && ["a"] + ["a"] == ["a", "a"];
  }

  /** Concrete run: another turn adds a job while the callback of a one-shot job is awaited. */
  lemma JobFiresTwice(calendar: Calendar)
    ensures var events := [Start(0)] + ([Add("a", At(Some(10)), false, 0)] + ([TimerFires(10)]
                          + ([Add("b", At(Some(100)), false, 11)] + ([TimerFires(12)] + []))));
            AllPossible(BORN, events, calendar) && Live(BORN, events, calendar).fired == ["a", "a"]
  {
    Armings(calendar);
    Firings(calendar);
    hide Follow;
    var added, meanwhile := Add("a", At(Some(10)), false, 0), Add("b", At(Some(100)), false, 11);
    assert AllPossible(AGAIN, [], calendar) && Live(AGAIN, [], calendar) == AGAIN;
    hide AllPossible, Live;
    First(CANCELLED, TimerFires(12), [], calendar);
    First(WAITING, meanwhile, [TimerFires(12)] + [], calendar);
    First(PLANNED, TimerFires(10), [meanwhile] + ([TimerFires(12)] + []), calendar);
    First(EMPTY, added, [TimerFires(10)] + ([meanwhile] + ([TimerFires(12)] + [])), calendar);
    First(BORN, Start(0), [added] + ([TimerFires(10)] + ([meanwhile] + ([TimerFires(12)] + []))), calendar);
  }

  // ---- Nothing is forgotten ----------------------------------------------------------------------

  /** In every life, interrupted or not, a running service is inside a tick or sleeps until the earliest
      planned time; it sleeps for ever only when nothing is planned. */
  lemma TimerNeverLost(events: seq<Event>, calendar: Calendar)
    requires AllPossible(BORN, events, calendar)
    ensures var l := Live(BORN, events, calendar);
            l.running ==>
              || l.task.Ticking?
              || EarliestPlan(Store(l), if l.task.Sleeping? then Some(l.task.wake) else None)
  {
    BornSound();
    LiveSound(BORN, events, calendar);
    var l := Live(BORN, events, calendar);
    hide Live;
    WakeIsEarliest(Store(l));
  }

  /** When the last callback of a tick ends, no one-shot job and no interval job is due at the time the
      tick began, on disk as in memory. */
  lemma NothingDueAfterTick(events: seq<Event>, e: Event, calendar: Calendar)
    requires AllPossible(BORN, events, calendar) && Possible(Live(BORN, events, calendar), e)
    requires e.CallbackEnds? && !Follow(Live(BORN, events, calendar), e, calendar).task.Ticking?
    ensures var l, l' := Live(BORN, events, calendar), Follow(Live(BORN, events, calendar), e, calendar);
            l'.disk == Store(l') && forall j :: j in l'.disk && !j.schedule.Expression? ==> !Due(j, l.task.now)
  {
    BornSound();
    LiveSound(BORN, events, calendar);
    var l := Live(BORN, events, calendar);
    hide Live;
    EndsSound(l, e, calendar);
  }
}
