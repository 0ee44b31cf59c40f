/** Conversation memory: an append-only transcript whose oldest part is archived chunk by chunk, up
    to an offset that always sits on a user turn. */
module Consolidation {
  import opened Common

  datatype Message = Message(role: string, content: Option<string>, toolCalls: Option<string>,
                             toolCallId: Option<string>, name: Option<string>, timestamp: int)

  /** What the model is shown of a message. */
  datatype Shown = Shown(role: string, content: string, toolCalls: Option<string>,
                         toolCallId: Option<string>, name: Option<string>)

  predicate IsUser(m: Message)
  {
    m.role == "user"
  }

  function Show(m: Message): Shown
  {
    Shown(m.role, m.content.GetOr(""), m.toolCalls, m.toolCallId, m.name)
  }

  function ShowAll(s: seq<Message>): (r: seq<Shown>)
    ensures |r| == |s| && forall i :: 0 <= i < |s| ==> r[i] == Show(s[i])
  {
    seq(|s|, i requires 0 <= i < |s| => Show(s[i]))
  }

  /** The model is shown the message as it is, with empty text where it has none. */
  predicate SameMessage(a: Shown, m: Message)
  {
    a.role == m.role && a.content == (if m.content.Some? then m.content.value else "") && a.toolCalls == m.toolCalls
    && a.toolCallId == m.toolCallId && a.name == m.name
  }

  // ---- The history view ------------------------------------------------------------------------

  /** Index of the first user message, or the length when there is none. */
  function FirstUser(s: seq<Message>): (i: nat)
    ensures i <= |s| && (i < |s| ==> IsUser(s[i])) && forall k :: 0 <= k < i ==> !IsUser(s[k])
  {
    if s == [] then 0 else if IsUser(s[0]) then 0 else FirstUser(s[1..]) + 1
  }

  /** Python's `s[-n:]`, which for zero is all of `s`. */
  function Last(s: seq<Message>, n: nat): seq<Message>
  {
    if n == 0 || n >= |s| then s else s[|s| - n..]
  }

  /** Leading messages of other roles are dropped, unless there is no user message at all. */
  function FromUser(s: seq<Message>): seq<Message>
  {
    var i := FirstUser(s);
    if i < |s| then s[i..] else s
  }

  function History(messages: seq<Message>, from: nat, max: nat): seq<Message>
    requires from <= |messages|
  {
    FromUser(Last(messages[from..], max))
  }

  /** The messages from `start` on are shown, as they are. `start` is the first user message of the rest,
      or of its last `max` messages, where those have one. */
  ghost predicate ShowsFrom(messages: seq<Message>, from: nat, max: nat, out: seq<Shown>)
    requires from <= |messages|
  {
    var low := if max == 0 || max >= |messages| - from then from else |messages| - max;
    exists start: nat :: StartsAt(messages, low, start) && ShowsRest(messages, start, out)
  }

  ghost predicate StartsAt(messages: seq<Message>, low: nat, start: nat)
  {
    && low <= start <= |messages| && (forall i :: low <= i < start ==> messages[i].role != "user")
    && (start == |messages| || messages[start].role != "user" ==>
          start == low && forall i :: low <= i < |messages| ==> messages[i].role != "user")
  }

  ghost predicate ShowsRest(messages: seq<Message>, start: nat, out: seq<Shown>)
  {
    start <= |messages| && |out| == |messages| - start
    && forall i :: 0 <= i < |out| ==> SameMessage(out[i], messages[start + i])
  }

  lemma FromUserStarts(messages: seq<Message>, low: nat) returns (start: nat)
    requires low <= |messages|
    ensures StartsAt(messages, low, start) && FromUser(messages[low..]) == messages[start..]
  {
    var window := messages[low..];
    var i := FirstUser(window);
    start := if i < |window| then low + i else low;
    assert forall k :: low <= k < |messages| ==> messages[k] == window[k - low];
    if i < |window| { assert window[i..] == messages[start..]; }
  }

  lemma AllShown(messages: seq<Message>, start: nat)
    requires start <= |messages|
    ensures ShowsRest(messages, start, ShowAll(messages[start..]))
  {}

  lemma HistoryShows(messages: seq<Message>, from: nat, max: nat)
    requires from <= |messages|
    ensures ShowsFrom(messages, from, max, ShowAll(History(messages, from, max)))
  {
    var low := if max == 0 || max >= |messages| - from then from else |messages| - max;
    assert Last(messages[from..], max) == messages[low..];
    hide FromUser, Last, ShowsRest, StartsAt, ShowAll;
    var start := FromUserStarts(messages, low);
    StartWithin(messages, low, start);
    AllShown(messages, start);
  }

  lemma StartWithin(messages: seq<Message>, low: nat, start: nat)
    requires StartsAt(messages, low, start)
    ensures start <= |messages|
  {}

  /** Exactly when the unlimited history is the whole unconsolidated rest. */
  lemma HistoryCompleteExactly(messages: seq<Message>, from: nat)
    requires from <= |messages|
    ensures History(messages, from, 0) == messages[from..] <==>
              from == |messages| || IsUser(messages[from])
              || forall k :: from <= k < |messages| ==> !IsUser(messages[k])
  {
    var rest := messages[from..];
    var i := FirstUser(rest);
    assert forall k :: 0 <= k < |rest| ==> rest[k] == messages[from + k];
    if 0 < i < |rest| {
      assert |History(messages, from, 0)| < |rest|;
      assert IsUser(messages[from + i]);
    }
  }

  /** A later offset on a user turn shortens the history, unless all it skips is what the history
      dropped anyway: then, and only then, the history stays as it is. */
  lemma HistoryMovesExactly(messages: seq<Message>, from: nat, to: nat)
    requires from < to < |messages| && IsUser(messages[to])
    ensures History(messages, to, 0) == History(messages, from, 0) <==>
              forall k :: from <= k < to ==> !IsUser(messages[k])
    ensures |History(messages, to, 0)| <= |History(messages, from, 0)|
    ensures History(messages, to, 0) == messages[to..]
  {
    var rest := messages[from..];
    var i := FirstUser(rest);
    assert forall k :: 0 <= k < |rest| ==> rest[k] == messages[from + k];
    assert FirstUser(messages[to..]) == 0;
    assert rest[to - from] == messages[to];
    assert i <= to - from;
    assert rest[i..] == messages[from + i..];
  }

  /** Consolidating one exchange takes it out of the history. */
  lemma ConsolidationChangesHistory()
    ensures var ask := Message("user", Some("q"), None, None, None, 0);
            var reply := Message("assistant", Some("a"), None, None, None, 1);
            var next := Message("user", Some("r"), None, None, None, 2);
            && History([ask, reply, next], 0, 0) == [ask, reply, next]
            && History([ask, reply, next], 2, 0) == [next]
  {
    var ask := Message("user", Some("q"), None, None, None, 0);
    var reply := Message("assistant", Some("a"), None, None, None, 1);
    var next := Message("user", Some("r"), None, None, None, 2);
    HistoryMovesExactly([ask, reply, next], 0, 2);
    assert [ask, reply, next][2..] == [next] && [ask, reply, next][0..] == [ask, reply, next];
  }

  // ---- The boundary ----------------------------------------------------------------------------

  function Weight(messages: seq<Message>, from: nat, to: nat, tokens: Message -> nat): nat
    requires from <= to <= |messages|
  {
    if from == to then 0 else Weight(messages, from, to - 1, tokens) + tokens(messages[to - 1])
  }

  /** What a chunk weighs is what its messages weigh together. */
  lemma {:induction false} WeightAddsUp(messages: seq<Message>, a: nat, b: nat, c: nat, tokens: Message -> nat)
    requires a <= b <= c <= |messages|
    ensures Weight(messages, a, c, tokens) == Weight(messages, a, b, tokens) + Weight(messages, b, c, tokens)
    ensures b + 1 == c ==> Weight(messages, b, c, tokens) == tokens(messages[b])
    decreases c
  {
    if b < c { WeightAddsUp(messages, a, b, c - 1, tokens); }
  }

  /** A user turn after `from`, with what would be removed by cutting there. */
  predicate UserTurn(messages: seq<Message>, from: nat, idx: nat)
  {
    from < idx < |messages| && IsUser(messages[idx])
  }

  /** The earliest user turn that removes enough; failing that, the last one. */
  predicate BestBoundary(messages: seq<Message>, from: nat, target: int, tokens: Message -> nat, idx: nat)
    requires from <= |messages|
  {
    && UserTurn(messages, from, idx)
    && (|| (Weight(messages, from, idx, tokens) >= target
            && forall k :: from < k < idx && UserTurn(messages, from, k) ==> Weight(messages, from, k, tokens) < target)
        || (forall k :: from < k < |messages| && UserTurn(messages, from, k) ==>
              k <= idx && Weight(messages, from, k, tokens) < target))
  }

  lemma BoundaryUnique(messages: seq<Message>, from: nat, target: int, tokens: Message -> nat, a: nat, b: nat)
    requires from <= |messages|
    requires BestBoundary(messages, from, target, tokens, a) && BestBoundary(messages, from, target, tokens, b)
    ensures a == b
  {
    assert UserTurn(messages, from, a) && UserTurn(messages, from, b);
  }

  class Session {
    var messages: seq<Message>
    var lastConsolidated: nat

    constructor ()
      ensures messages == [] && lastConsolidated == 0
    {
      messages := [];
      lastConsolidated := 0;
    }

    method AddMessage(m: Message)
      modifies this
      ensures messages == old(messages) + [m] && lastConsolidated == old(lastConsolidated)
    {
      messages := messages + [m];
    }

    /** The unconsolidated rest, or the last `max` of it, from its first user message on where it has one. */
    method GetHistory(max: nat) returns (out: seq<Shown>)
      requires lastConsolidated <= |messages|
      ensures out == ShowAll(History(messages, lastConsolidated, max))
      ensures ShowsFrom(messages, lastConsolidated, max, out)
    {
      var sliced := Last(messages[lastConsolidated..], max);
      ghost var whole := sliced;
      var i := 0;
      while i < |sliced| && !IsUser(sliced[i])
        invariant i <= |sliced| && forall k :: 0 <= k < i ==> !IsUser(sliced[k])
      {
        i := i + 1;
      }
      assert i == FirstUser(whole);
      if i < |sliced| { sliced := sliced[i..]; }
      out := Render(sliced);
      HistoryShows(messages, lastConsolidated, max);
    }

    method Render(s: seq<Message>) returns (out: seq<Shown>)
      ensures out == ShowAll(s)
    {
      out := [];
      var j := 0;
      while j < |s|
        invariant j <= |s| && out == ShowAll(s[..j])
      {
        out := out + [Show(s[j])];
        j := j + 1;
      }
      assert s[..j] == s;
    }

    method Clear()
      modifies this
      ensures messages == [] && lastConsolidated == 0
    {
      messages := [];
      lastConsolidated := 0;
    }
  }

  method PickBoundary(session: Session, target: int, tokens: Message -> nat) returns (r: Option<(nat, nat)>)
    requires session.lastConsolidated <= |session.messages|
    ensures r.None? <==> target <= 0
                         || forall k :: 0 <= k < |session.messages| ==> !UserTurn(session.messages, session.lastConsolidated, k)
    ensures r.Some? ==>
              && BestBoundary(session.messages, session.lastConsolidated, target, tokens, r.value.0)
              && r.value.1 == Weight(session.messages, session.lastConsolidated, r.value.0, tokens)
  {
    var messages, start := session.messages, session.lastConsolidated;
    if start >= |messages| || target <= 0 { return None; }
    var removed := 0;
    r := None;
    var idx := start;
    while idx < |messages|
      invariant start <= idx <= |messages| && removed == Weight(messages, start, idx, tokens)
      invariant r.None? <==> forall k :: start < k < idx ==> !UserTurn(messages, start, k)
      invariant r.Some? ==> UserTurn(messages, start, r.value.0) && r.value.0 < idx
                            && r.value.1 == Weight(messages, start, r.value.0, tokens)
      invariant forall k :: start < k < idx && UserTurn(messages, start, k) ==>
                  Weight(messages, start, k, tokens) < target && k <= r.value.0
    {
      var m := messages[idx];
      if idx > start && IsUser(m) {
        r := Some((idx, removed));
        assert UserTurn(messages, start, idx);
        if removed >= target { return; }
      }
      removed := removed + tokens(m);
      idx := idx + 1;
    }
  }

  // ---- Consolidation ---------------------------------------------------------------------------

  const MAX_ROUNDS := 5

  /** No round follows, when this many are done and the offset is here: there was nothing to do from the
      start; or five rounds ran; or the prompt fits half the window, or could not be measured; or no user
      turn lies behind the offset; or archiving the next chunk fails. */
  predicate Stops(messages: seq<Message>, offset: nat, window: int, rounds: nat, estimates: nat -> int,
                  archived: nat -> bool)
  {
    || messages == [] || window <= 0 || (rounds == 0 && estimates(0) < window)
    || rounds >= 5 || estimates(rounds) <= window / 2
    || (forall k :: offset < k < |messages| ==> messages[k].role != "user")
    || !archived(rounds)
  }

  /** The k-th round was due, and archived the messages up to the best boundary for what exceeded half
      the window. */
  ghost predicate RoundAt(k: nat, messages: seq<Message>, offsets: seq<nat>, chunks: seq<seq<Message>>, window: int,
                          tokens: Message -> nat, estimates: nat -> int, archived: nat -> bool)
  {
    && k + 1 < |offsets| && k < |chunks| && offsets[k] < offsets[k + 1] < |messages|
    && !Stops(messages, offsets[k], window, k, estimates, archived)
    && chunks[k] == messages[offsets[k]..offsets[k + 1]]
    && BestBoundary(messages, offsets[k], estimates(k) - window / 2, tokens, offsets[k + 1])
  }

  lemma RoundsGoOn(rounds: nat, messages: seq<Message>, offsets: seq<nat>, chunks: seq<seq<Message>>, window: int,
                   tokens: Message -> nat, estimates: nat -> int, archived: nat -> bool, end: nat)
    requires |offsets| == rounds + 1 == |chunks| + 1
    requires forall k: nat :: k < rounds ==> RoundAt(k, messages, offsets, chunks, window, tokens, estimates, archived)
    requires offsets[rounds] < end < |messages| && messages[end].role == "user"
    requires window > 0 && (rounds == 0 ==> estimates(0) >= window) && rounds < 5 && estimates(rounds) > window / 2
    requires archived(rounds)
    requires BestBoundary(messages, offsets[rounds], estimates(rounds) - window / 2, tokens, end)
    ensures forall k: nat :: k < rounds + 1 ==>
              RoundAt(k, messages, offsets + [end], chunks + [messages[offsets[rounds]..end]], window, tokens, estimates, archived)
  {
    var offsets', chunks' := offsets + [end], chunks + [messages[offsets[rounds]..end]];
    forall k: nat | k < rounds + 1 ensures RoundAt(k, messages, offsets', chunks', window, tokens, estimates, archived) {
      hide BestBoundary;
      if k < rounds {
        assert RoundAt(k, messages, offsets, chunks, window, tokens, estimates, archived);
        assert offsets'[k] == offsets[k] && offsets'[k + 1] == offsets[k + 1] && chunks'[k] == chunks[k];
      }
    }
  }

  lemma NoTurnBehind(messages: seq<Message>, from: nat)
    requires forall k :: 0 <= k < |messages| ==> !UserTurn(messages, from, k)
    ensures forall k :: from < k < |messages| ==> messages[k].role != "user"
  {
    forall k | from < k < |messages| ensures messages[k].role != "user" { assert !UserTurn(messages, from, k); }
  }

  lemma BoundaryIsTurn(messages: seq<Message>, from: nat, target: int, tokens: Message -> nat, idx: nat)
    requires from <= |messages| && BestBoundary(messages, from, target, tokens, idx)
    ensures from < idx < |messages| && IsUser(messages[idx])
  {}

  /** One conversation with everything that was ever said in it and ever archived from it. */
  class Conversation {
    const session: Session
    /** The long-term memory: every chunk that was archived, oldest first. */
    var archive: seq<seq<Message>>
    /** The offset last written to disk. */
    var savedOffset: nat
    ghost var said: seq<Message>
    ghost var closed: seq<Message>

    constructor ()
      ensures Valid() && said == [] && archive == [] && fresh(session)
    {
      session := new Session();
      archive, savedOffset, said, closed := [], 0, [], [];
    }

    /** Everything said is archived once, in order, or still waits behind the offset; the offset is
        zero or on a user turn. */
    ghost predicate Valid()
      reads this, session
    {
      && session.lastConsolidated <= |session.messages|
      && said == closed + session.messages
      && Concat(archive) == closed + session.messages[..session.lastConsolidated]
      && OnUserTurn()
    }

    ghost predicate OnUserTurn()
      reads this, session
    {
      session.lastConsolidated == 0
      || (session.lastConsolidated < |session.messages| && IsUser(session.messages[session.lastConsolidated]))
    }

    method Say(m: Message)
      requires Valid()
      modifies this, session
      ensures Valid() && said == old(said) + [m] && archive == old(archive)
      ensures session.messages == old(session.messages) + [m]
      ensures session.lastConsolidated == old(session.lastConsolidated)
    {
      session.AddMessage(m);
      said := said + [m];
      assert session.messages[..session.lastConsolidated] == old(session.messages[..session.lastConsolidated]);
    }

    /** One archived chunk: everything up to the boundary, and nothing twice. */
    method Archive(end: nat, ok: bool)
      requires Valid() && session.lastConsolidated < end < |session.messages| && IsUser(session.messages[end])
      modifies this`archive, this`savedOffset, session`lastConsolidated
      ensures Valid()
      ensures ok ==> archive == old(archive) + [session.messages[old(session.lastConsolidated)..end]]
                     && session.lastConsolidated == savedOffset == end
      ensures !ok ==> archive == old(archive) && session.lastConsolidated == old(session.lastConsolidated)
                      && savedOffset == old(savedOffset)
    {
      var chunk := session.messages[session.lastConsolidated..end];
      if !ok { return; }
      ConcatAppend(archive, chunk);
      assert session.messages[..end] == session.messages[..session.lastConsolidated] + chunk;
      archive := archive + [chunk];
      session.lastConsolidated := end;
      savedOffset := end;
    }

    /** Archives the oldest turns until the prompt fits half the window. `estimates` are the prompt
        sizes measured before the first round and after each, `archived` how each round's archiving
        ends. Each round archives the messages up to the best boundary for what exceeds half the window,
        and nothing else happens; and the rounds stop exactly where `Stops` says. */
    method MaybeConsolidate(window: int, tokens: Message -> nat, estimates: nat -> int, archived: nat -> bool)
      returns (rounds: nat, ghost offsets: seq<nat>, ghost chunks: seq<seq<Message>>)
      requires Valid()
      modifies this`archive, this`savedOffset, session`lastConsolidated
      ensures Valid() && session.messages == old(session.messages) && said == old(said)
      ensures |offsets| == rounds + 1 == |chunks| + 1 && archive == old(archive) + chunks
      ensures offsets[0] == old(session.lastConsolidated) && offsets[rounds] == session.lastConsolidated
      ensures forall k: nat :: k < rounds ==> RoundAt(k, session.messages, offsets, chunks, window, tokens, estimates, archived)
      ensures Stops(session.messages, session.lastConsolidated, window, rounds, estimates, archived)
      ensures savedOffset == if rounds > 0 then session.lastConsolidated else old(savedOffset)
    {
      rounds, offsets, chunks := 0, [session.lastConsolidated], [];
      assert archive == archive + [];
      if session.messages == [] || window <= 0 { return; }
      var target := window / 2;
      var estimated := estimates(0);
      if estimated <= 0 || estimated < window { return; }
      var round := 0;
      while round < MAX_ROUNDS
        invariant round <= MAX_ROUNDS && rounds == round && Valid() && estimated == estimates(rounds) > 0
        invariant session.messages != [] && (rounds == 0 ==> estimated >= window)
        invariant |offsets| == rounds + 1 == |chunks| + 1 && archive == old(archive) + chunks
        invariant offsets[0] == old(session.lastConsolidated) && offsets[rounds] == session.lastConsolidated
        invariant forall k: nat :: k < rounds ==>
                    RoundAt(k, session.messages, offsets, chunks, window, tokens, estimates, archived)
        invariant savedOffset == if rounds > 0 then session.lastConsolidated else old(savedOffset)
      {
        hide BestBoundary, RoundAt;
        if estimated <= target { return; }
        var boundary := PickBoundary(session, if estimated - target > 1 then estimated - target else 1, tokens);
        if boundary.None? {
          NoTurnBehind(session.messages, session.lastConsolidated);
          return;
        }
        var end := boundary.value.0;
        ghost var before, chunk := session.lastConsolidated, session.messages[session.lastConsolidated..end];
        BoundaryIsTurn(session.messages, before, estimated - target, tokens, end);
        Archive(end, archived(round));
        if !archived(round) { return; }
        RoundsGoOn(rounds, session.messages, offsets, chunks, window, tokens, estimates, archived, end);
        offsets, chunks := offsets + [end], chunks + [chunk];
        rounds := rounds + 1;
        estimated := estimates(rounds);
        if estimated <= 0 { return; }
        round := round + 1;
      }
    }

    /** `/new`: the whole rest is archived, then the session starts over; when archiving fails
        nothing at all changes. */
    method StartOver(ok: bool) returns (done: bool)
      requires Valid()
      modifies this, session
      ensures Valid() && said == old(said)
      ensures done <==> ok || old(session.lastConsolidated) == |old(session.messages)|
      ensures done ==> session.messages == [] && Concat(archive) == said
      ensures !done ==> archive == old(archive) && session.messages == old(session.messages)
                        && session.lastConsolidated == old(session.lastConsolidated)
    {
      var snapshot := session.messages[session.lastConsolidated..];
      if snapshot != [] {
        if !ok { return false; }
        ConcatAppend(archive, snapshot);
        archive := archive + [snapshot];
      }
      assert session.messages == session.messages[..session.lastConsolidated] + snapshot;
      closed := closed + session.messages;
      session.Clear();
      savedOffset := 0;
      return true;
    }

    /** Archive and history together hold every message exactly once, in the order it was said, as
        soon as anything was consolidated, or the transcript opens with a user turn. */
    lemma NothingForgotten()
      requires Valid()
      requires session.lastConsolidated > 0 || session.messages == [] || IsUser(session.messages[0])
      ensures Concat(archive) + History(session.messages, session.lastConsolidated, 0) == said
    {
      HistoryCompleteExactly(session.messages, session.lastConsolidated);
      assert session.messages
             == session.messages[..session.lastConsolidated] + session.messages[session.lastConsolidated..];
    }
  }
}
