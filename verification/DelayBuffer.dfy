/** Delayed dispatch of group messages: entries gather in a buffer until a timer expires or someone
    is mentioned. Each critical section runs without giving up the event loop, so it is one step;
    the steps of any number of tasks interleave freely. */
module DelayBuffer {
  import opened Common

  datatype Entry = Entry(id: nat, body: string)

  /** A timer task sleeps, was cancelled in its sleep, or has taken the entries it dispatches. */
  datatype Timer = Sleeping | Cancelled | Taken

  /** One target: its buffer, the timer it points at, every timer task ever made, the batches handed
      over for dispatch, and every entry accepted so far. */
  datatype Delay = Delay(entries: seq<Entry>, timer: Option<nat>, tasks: seq<Timer>,
                         batches: seq<seq<Entry>>, accepted: seq<Entry>)

  const IDLE := Delay([], None, [], [], [])

  datatype Step =
    | Enqueue(entry: Entry)
    | Mention(entry: Entry)
    | Wake(task: nat)

  // ---- The transition system -------------------------------------------------------------------

  /** `timer.cancel()`: a sleeping task will never flush. */
  function CancelTimer(d: Delay): Delay
  {
    if d.timer.Some? && d.timer.value < |d.tasks|
    then d.(tasks := d.tasks[d.timer.value := Cancelled]) else d
  }

  function Armed(d: Delay): Delay
  {
    d.(tasks := d.tasks + [Sleeping], timer := Some(|d.tasks|))
  }

  /** The buffer is emptied into a batch, which is dispatched unless it is empty. */
  function TakenAll(d: Delay): Delay
  {
    d.(timer := None, entries := [], batches := d.batches + if d.entries == [] then [] else [d.entries])
  }

  predicate Sleeps(d: Delay, task: nat)
  {
    task < |d.tasks| && d.tasks[task].Sleeping?
  }

  /** One critical section of one task. A cancelled timer that wakes does nothing. */
  function Next(d: Delay, s: Step): Delay
  {
    match s
    case Enqueue(e) =>
      Armed(CancelTimer(d.(entries := d.entries + [e], accepted := d.accepted + [e])))
    case Mention(e) =>
      TakenAll(CancelTimer(d.(entries := d.entries + [e], accepted := d.accepted + [e])))
    case Wake(task) =>
      if !Sleeps(d, task) then d
      else
        var d1 := d.(tasks := d.tasks[task := Taken]);
        TakenAll(if d.timer != Some(task) then CancelTimer(d1) else d1)
  }

  function Run(d: Delay, steps: seq<Step>): Delay
  {
    if steps == [] then d else Next(Run(d, steps[..|steps| - 1]), steps[|steps| - 1])
  }

  /** Nothing accepted is lost or doubled, and order is kept; a non-empty buffer has exactly one live
      timer, the armed one; an empty buffer has none; no batch is empty. */
  ghost predicate Good(d: Delay)
  {
    && d.accepted == Concat(d.batches) + d.entries
    && (d.entries == [] <==> d.timer.None?)
    && (d.timer.Some? ==> Sleeps(d, d.timer.value))
    && (forall t :: 0 <= t < |d.tasks| && d.tasks[t].Sleeping? ==> d.timer == Some(t))
    && (forall b :: 0 <= b < |d.batches| ==> d.batches[b] != [])
  }

  lemma TakenAllKeeps(d: Delay)
    requires d.accepted == Concat(d.batches) + d.entries
    requires forall t :: 0 <= t < |d.tasks| ==> !d.tasks[t].Sleeping?
    requires forall b :: 0 <= b < |d.batches| ==> d.batches[b] != []
    ensures Good(TakenAll(d))
  {
    if d.entries != [] {
      ConcatAppend(d.batches, d.entries);
    } else {
      assert d.batches + [] == d.batches;
    }
  }

  lemma NextGood(d: Delay, s: Step)
    requires Good(d)
    ensures Good(Next(d, s))
  {
    match s
    case Enqueue(e) =>
      assert d.accepted + [e] == Concat(d.batches) + (d.entries + [e]);
    case Mention(e) =>
      assert d.accepted + [e] == Concat(d.batches) + (d.entries + [e]);
      TakenAllKeeps(CancelTimer(d.(entries := d.entries + [e], accepted := d.accepted + [e])));
    case Wake(task) =>
      if Sleeps(d, task) { TakenAllKeeps(d.(tasks := d.tasks[task := Taken])); }
  }

  /** In every interleaving, at every moment. */
  lemma {:induction false} RunGood(steps: seq<Step>)
    ensures Good(Run(IDLE, steps))
  {
    if steps == [] {
    } else {
      RunGood(steps[..|steps| - 1]);
      NextGood(Run(IDLE, steps[..|steps| - 1]), steps[|steps| - 1]);
    }
  }

  lemma NextKeepsTaken(d: Delay, s: Step, t: nat)
    requires Good(d) && t < |d.tasks| && !d.tasks[t].Sleeping?
    ensures t < |Next(d, s).tasks| && Next(d, s).tasks[t] == d.tasks[t]
  {}

  /** A timer that has taken its entries is never cancelled by anything that happens later, and a
      cancelled one never wakes. */
  lemma {:induction false} TakenIsFinal(steps: seq<Step>, more: seq<Step>, t: nat)
    requires t < |Run(IDLE, steps).tasks| && !Run(IDLE, steps).tasks[t].Sleeping?
    ensures t < |Run(IDLE, steps + more).tasks| && Run(IDLE, steps + more).tasks[t] == Run(IDLE, steps).tasks[t]
    decreases |more|
  {
    hide Next, Good;
    if more == [] {
      assert steps + more == steps;
    } else {
      var last := |more| - 1;
      assert (steps + more)[..|steps + more| - 1] == steps + more[..last];
      TakenIsFinal(steps, more[..last], t);
      RunGood(steps + more[..last]);
      NextKeepsTaken(Run(IDLE, steps + more[..last]), more[last], t);
    }
  }

  /** At any moment of any interleaving: when something is buffered, the armed timer's waking hands all
      of it over, as one batch. */
  lemma BufferedIsDispatched(steps: seq<Step>)
    requires Run(IDLE, steps).entries != []
    ensures var d := Run(IDLE, steps);
            && d.timer.Some?
            && var d' := Run(IDLE, steps + [Wake(d.timer.value)]);
               d'.entries == [] && d'.batches == d.batches + [d.entries]
  {
    RunGood(steps);
    var d := Run(IDLE, steps);
    var longer := steps + [Wake(d.timer.value)];
    assert longer[..|longer| - 1] == steps;
  }

  /** What a step leaves at any moment of any interleaving. An entry that is not a mention waits behind
      the others; a mention hands over at once everything that waits, itself last, and leaves no timer
      behind. */
  lemma EntriesWaitOrGo(steps: seq<Step>, e: Entry)
    ensures var d, d' := Run(IDLE, steps), Run(IDLE, steps + [Enqueue(e)]);
            && d'.entries == d.entries + [e] && d'.batches == d.batches && d'.accepted == d.accepted + [e]
            && d'.timer == Some(|d.tasks|) && |d'.tasks| == |d.tasks| + 1 && Sleeps(d', |d.tasks|)
    ensures var d, d' := Run(IDLE, steps), Run(IDLE, steps + [Mention(e)]);
            && d'.entries == [] && d'.batches == d.batches + [d.entries + [e]] && d'.accepted == d.accepted + [e]
            && d'.timer.None? && forall t :: 0 <= t < |d'.tasks| ==> !Sleeps(d', t)
  {
    RunGood(steps);
    var d := Run(IDLE, steps);
    var one, other := steps + [Enqueue(e)], steps + [Mention(e)];
    assert one[..|one| - 1] == steps && other[..|other| - 1] == steps;
    NextGood(d, Mention(e));
  }

  // ---- The buffer as it works ------------------------------------------------------------------

  class DelayState {
    var entries: seq<Entry>
    var timer: Option<nat>
    var tasks: seq<Timer>
    var batches: seq<seq<Entry>>
    ghost var accepted: seq<Entry>

    constructor ()
      ensures View() == IDLE
    {
      entries, timer, tasks, batches, accepted := [], None, [], [], [];
    }

    ghost function View(): Delay
      reads this
    {
      Delay(entries, timer, tasks, batches, accepted)
    }

    /** Only a task that still sleeps is ever cancelled. */
    method Cancel(task: nat)
      requires task < |tasks| && tasks[task].Sleeping?
      modifies this`tasks
      ensures tasks == old(tasks)[task := Cancelled]
    {
      tasks := tasks[task := Cancelled];
    }

    method EnqueueDelayedEntry(e: Entry)
      requires Good(View())
      modifies this
      ensures View() == Next(old(View()), Enqueue(e)) && Good(View())
    {
      NextGood(View(), Enqueue(e));
      entries := entries + [e];
      accepted := accepted + [e];
      if timer.Some? { Cancel(timer.value); }
      timer := Some(|tasks|);
      tasks := tasks + [Sleeping];
    }

    /** `current` is the timer task that runs this flush, if a timer runs it. */
    method FlushDelayedEntries(current: Option<nat>, mention: Option<Entry>)
      requires Good(View()) && (current.Some? <==> mention.None?)
      requires current.Some? ==> current.value < |tasks| && tasks[current.value].Sleeping?
      modifies this
      ensures View() == Next(old(View()), if current.Some? then Wake(current.value) else Mention(mention.value))
      ensures Good(View())
    {
      NextGood(View(), if current.Some? then Wake(current.value) else Mention(mention.value));
      if mention.Some? {
        entries := entries + [mention.value];
        accepted := accepted + [mention.value];
      }
      if current.Some? { tasks := tasks[current.value := Taken]; }
      if timer.Some? && timer != current { Cancel(timer.value); }
      timer := None;
      var taken := entries;
      entries := [];
      if taken != [] { batches := batches + [taken]; }
    }
  }

  // ---- Duplicates ----------------------------------------------------------------------------

  const MAX_SEEN := 2000

  function LastOf(s: seq<string>, n: nat): seq<string>
  {
    if |s| <= n then s else s[|s| - n..]
  }

  /** The ids let through when a stream of ids arrives. */
  function LetThrough(ids: seq<string>): seq<string>
  {
    if ids == [] then []
    else
      var before := LetThrough(ids[..|ids| - 1]);
      if ids[|ids| - 1] in LastOf(before, MAX_SEEN) then before else before + [ids[|ids| - 1]]
  }

  lemma LastOfHolds(s: seq<string>, n: nat)
    ensures forall i :: 0 <= i < |s| && |s| - i <= n ==> s[i] in LastOf(s, n)
  {
    forall i | 0 <= i < |s| && |s| - i <= n ensures s[i] in LastOf(s, n) {
      assert LastOf(s, n)[i - (|s| - |LastOf(s, n)|)] == s[i];
    }
  }

  /** The same message gets through twice only with at least two thousand others in between. */
  lemma {:induction false} DuplicatesAreFarApart(ids: seq<string>, i: nat, j: nat)
    requires i < j < |LetThrough(ids)| && LetThrough(ids)[i] == LetThrough(ids)[j]
    ensures j - i > MAX_SEEN
  {
    var before := LetThrough(ids[..|ids| - 1]);
    if j < |before| {
      DuplicatesAreFarApart(ids[..|ids| - 1], i, j);
    } else {
      LastOfHolds(before, MAX_SEEN);
    }
  }

  lemma OldestForgotten(seen: set<string>, queue: seq<string>)
    requires queue != [] && Distinct(queue) && forall x :: x in seen <==> x in queue
    ensures Distinct(queue[1..]) && forall x :: x in seen - {queue[0]} <==> x in queue[1..]
  {
    assert queue == [queue[0]] + queue[1..];
    assert queue[0] !in queue[1..] by { assert forall k :: 1 <= k < |queue| ==> queue[k] != queue[0]; }
  }

  class SeenWindow {
    var seen: set<string>
    var queue: seq<string>
    ghost var passed: seq<string>

    constructor ()
      ensures Valid() && passed == []
    {
      seen, queue, passed := {}, [], [];
    }

    /** The set is the queue, and the queue is the last two thousand ids that were let through. */
    ghost predicate Valid()
      reads this
    {
      && (forall id :: id in seen <==> id in queue)
      && Distinct(queue) && queue == LastOf(passed, MAX_SEEN)
    }

    /** Says whether the id is a duplicate; a new one is remembered, the oldest forgotten. */
    method Remember(id: string) returns (duplicate: bool)
      requires Valid()
      modifies this
      ensures Valid() && (duplicate <==> id in LastOf(old(passed), MAX_SEEN))
      ensures passed == if duplicate then old(passed) else old(passed) + [id]
    {
      if id in seen { return true; }
      seen := seen + {id};
      queue := queue + [id];
      passed := passed + [id];
      while |queue| > MAX_SEEN
        invariant (forall x :: x in seen <==> x in queue) && Distinct(queue)
        invariant MAX_SEEN <= |queue| || queue == passed
        invariant |queue| <= |passed| && queue == passed[|passed| - |queue|..]
        invariant passed == old(passed) + [id] && |queue| <= MAX_SEEN + 1
        decreases |queue|
      {
        OldestForgotten(seen, queue);
        hide Distinct;
        seen := seen - {queue[0]};
        queue := queue[1..];
      }
      return false;
    }
  }

  // ---- Session cursors -------------------------------------------------------------------------

  datatype Event = Event(seqNo: Option<int>, isMessage: bool)

  function Max(a: int, b: int): int
  {
    if a >= b then a else b
  }

  /** The highest sequence number of some events, or `base`. */
  function MaxSeq(events: seq<Event>, base: int): int
  {
    if events == [] then base
    else
      var e := events[|events| - 1];
      var m := MaxSeq(events[..|events| - 1], base);
      if e.seqNo.Some? then Max(m, e.seqNo.value) else m
  }

  lemma {:induction false} MaxSeqIsMax(events: seq<Event>, base: int)
    ensures MaxSeq(events, base) >= base
    ensures forall i :: 0 <= i < |events| && events[i].seqNo.Some? ==> events[i].seqNo.value <= MaxSeq(events, base)
    ensures MaxSeq(events, base) == base
            || exists i :: 0 <= i < |events| && events[i].seqNo == Some(MaxSeq(events, base))
  {
    if events != [] {
      var front := events[..|events| - 1];
      MaxSeqIsMax(front, base);
      assert forall i :: 0 <= i < |front| ==> events[i] == front[i];
      if MaxSeq(front, base) != base && MaxSeq(events, base) == MaxSeq(front, base) {
        var i :| 0 <= i < |front| && front[i].seqNo == Some(MaxSeq(front, base));
        assert events[i].seqNo == Some(MaxSeq(events, base));
      }
    }
  }

  function Messages(events: seq<Event>): seq<Event>
  {
    if events == [] then []
    else Messages(events[..|events| - 1]) + if events[|events| - 1].isMessage then [events[|events| - 1]] else []
  }

  /** Which events are handed on: all messages, in order, and nothing else. */
  ghost predicate HandsOn(events: seq<Event>, handed: seq<Event>, places: seq<nat>)
  {
    && |places| == |handed|
    && (forall k :: 0 <= k < |places| ==> places[k] < |events| && events[places[k]] == handed[k] && handed[k].isMessage)
    && (forall k, l :: 0 <= k < l < |places| ==> places[k] < places[l])
    && (forall i :: 0 <= i < |events| && events[i].isMessage ==> i in places)
  }

  lemma HandsOnMore(events: seq<Event>, handed: seq<Event>, places: seq<nat>, last: Event)
    requires HandsOn(events, handed, places)
    ensures if last.isMessage then HandsOn(events + [last], handed + [last], places + [|events|])
            else HandsOn(events + [last], handed, places)
  {
    var all := events + [last];
    assert forall k :: 0 <= k < |places| ==> all[places[k]] == events[places[k]];
    assert forall i :: 0 <= i < |all| ==> all[i] == if i < |events| then events[i] else last;
    var more := places + [|events|];
    assert more[|places|] == |events| && forall k :: 0 <= k < |places| ==> more[k] == places[k];
    forall i | 0 <= i < |all| && all[i].isMessage ensures i in more {
      if i < |events| {
        var k :| 0 <= k < |places| && places[k] == i;
        assert more[k] == i;
      }
    }
  }

  lemma {:induction false} MessagesHandedOn(events: seq<Event>) returns (places: seq<nat>)
    ensures HandsOn(events, Messages(events), places)
  {
    if events == [] {
      places := [];
    } else {
      var front, last := events[..|events| - 1], events[|events| - 1];
      var before := MessagesHandedOn(front);
      HandsOnMore(front, Messages(front), before, last);
      hide HandsOn;
      assert events == front + [last];
      assert Messages(front) + [] == Messages(front);
      places := if last.isMessage then before + [|front|] else before;
    }
  }

  class SessionCursor {
    var cursor: Option<nat>
    var cold: bool

    constructor (cursor: Option<nat>, cold: bool)
      ensures this.cursor == cursor && this.cold == cold
    {
      this.cursor, this.cold := cursor, cold;
    }

    /** A cursor never moves back. */
    method Mark(c: int)
      modifies this`cursor
      ensures cursor.GetOr(0) == if c >= 0 then Max(old(cursor).GetOr(0), c) else old(cursor).GetOr(0)
    {
      if c < 0 || c < cursor.GetOr(0) { return; }
      cursor := Some(c);
    }

    /** One watch payload: the cursor ends at the highest number seen, and every message is handed on
        in order, except that the first events of a cold session are dropped. */
    method HandleWatch(payloadCursor: Option<int>, events: Option<seq<Event>>) returns (handed: seq<Event>)
      modifies this
      ensures var start := if payloadCursor.Some? then Max(old(cursor).GetOr(0), payloadCursor.value)
                           else old(cursor).GetOr(0);
              cursor.GetOr(0) == if events.None? || old(cold) then start else MaxSeq(events.value, start)
      ensures cursor.GetOr(0) >= old(cursor).GetOr(0)
      ensures handed == if events.None? || old(cold) then [] else Messages(events.value)
      ensures cold <==> old(cold) && events.None?
    {
      if payloadCursor.Some? && payloadCursor.value >= 0 { Mark(payloadCursor.value); }
      if events.None? { return []; }
      if cold {
        cold := false;
        return [];
      }
      ghost var start := cursor.GetOr(0);
      handed := [];
      var i := 0;
      while i < |events.value|
        invariant i <= |events.value| && !cold && handed == Messages(events.value[..i])
        invariant cursor.GetOr(0) == MaxSeq(events.value[..i], start) >= start
      {
        var e := events.value[i];
        assert events.value[..i + 1][..i] == events.value[..i];
        if e.seqNo.Some? && e.seqNo.value > cursor.GetOr(0) { Mark(e.seqNo.value); }
        if e.isMessage { handed := handed + [e]; }
        i := i + 1;
      }
      assert events.value[..i] == events.value;
    }
  }
}
