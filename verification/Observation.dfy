/** Collecting observations around a command: which Gateway messages become the newest frame of a
    source, and when a snapshot may be taken as evidence of the time before or after. */
module Observation {
  import opened Common

  datatype Image = Image(source: string, sequence: nat, capturedAt: Option<real>, receivedAt: int,
                         mediaType: string, data: Bytes)
  datatype State = State(receivedAt: int, payload: Dict)
  datatype Snapshot = Snapshot(capturedAt: int, images: map<string, Image>, state: Option<State>)

  /** Number conversion, base64 and the maximum artifact size are given. */
  datatype Decoder = Decoder(toInt: Json -> Option<int>, toFinite: Json -> Option<real>,
                             base64: string -> Option<Bytes>, maxBytes: nat)

  // ---- Image messages --------------------------------------------------------------------------

  datatype Verdict = Ignored | Invalid | Frame(image: Image)

  function BeforeSemicolon(s: string): string
  {
    if s == "" || s[0] == ';' then "" else [s[0]] + BeforeSemicolon(s[1..])
  }

  function MediaType(payload: Dict): string
  {
    if "content_type" in payload && payload["content_type"].JStr?
    then Lower(BeforeSemicolon(payload["content_type"].s)) else ""
  }

  const IMAGE_PREFIX := "image/"

  /** The leading bytes are those of the declared format. */
  predicate MatchesMediaType(data: Bytes, mediaType: string)
  {
    match mediaType
    case "image/jpeg" => [0xff, 0xd8, 0xff] <= data
    case "image/jpg" => [0xff, 0xd8, 0xff] <= data
    case "image/png" => [0x89, 0x50, 0x4e, 0x47, 0x0d, 0x0a, 0x1a, 0x0a] <= data
    case "image/webp" => |data| >= 12 && data[..4] == [0x52, 0x49, 0x46, 0x46] && data[8..12] == [0x57, 0x45, 0x42, 0x50]
    case _ => false
  }

  /** What an image message comes to, in the order the checks are made. */
  function Judge(payload: Dict, required: seq<string>, d: Decoder, now: int): Verdict
  {
    if "type" !in payload || payload["type"] != JStr("image") then Ignored
    else if "id" !in payload || !payload["id"].JStr? || payload["id"].s == "" then Invalid
    else
      var source := payload["id"].s;
      if required != [] && source !in required then Ignored
      else if "seq" !in payload || d.toInt(payload["seq"]).None? || d.toInt(payload["seq"]).value < 0 then Invalid
      else
        var stamped := "timestamp" in payload && !payload["timestamp"].JNull?;
        if stamped && d.toFinite(payload["timestamp"]).None? then Invalid
        else if !(IMAGE_PREFIX <= MediaType(payload)) then Invalid
        else if "data" !in payload || !payload["data"].JStr? then Invalid
        else if |payload["data"].s| > (d.maxBytes + 2) / 3 * 4 + 4 then Invalid
        else
          var data := d.base64(payload["data"].s);
          if data.None? || data.value == [] || |data.value| > d.maxBytes
             || !MatchesMediaType(data.value, MediaType(payload)) then Invalid
          else Frame(Image(source, d.toInt(payload["seq"]).value,
                           if stamped then d.toFinite(payload["timestamp"]) else None,
                           now, MediaType(payload), data.value))
  }

  /** A frame of a wanted source, within the size limit and of its own format. */
  predicate ValidFrame(i: Image, required: seq<string>, d: Decoder)
  {
    && i.source != "" && (required == [] || i.source in required) && i.sequence >= 0
    && 0 < |i.data| <= d.maxBytes && HasMagic(i.data, i.mediaType)
  }

  lemma FramesAreValid(payload: Dict, required: seq<string>, d: Decoder, now: int)
    requires Judge(payload, required, d, now).Frame?
    ensures ValidFrame(Judge(payload, required, d, now).image, required, d)
    ensures Judge(payload, required, d, now).image.receivedAt == now
  {
    var i := Judge(payload, required, d, now).image;
    MagicMatches(i.data, i.mediaType);
  }

  function Kept(images: map<string, Image>, v: Verdict): map<string, Image>
  {
    if v.Frame? && (v.image.source in images ==> v.image.sequence > images[v.image.source].sequence)
    then images[v.image.source := v.image] else images
  }

  /** The frames kept after a whole run of verdicts. */
  function Collected(verdicts: seq<Verdict>): map<string, Image>
  {
    if verdicts == [] then map[] else Kept(Collected(verdicts[..|verdicts| - 1]), verdicts[|verdicts| - 1])
  }

  predicate From(v: Verdict, source: string)
  {
    v.Frame? && v.image.source == source
  }

  /** Position `k` holds the highest sequence number of the source, and the first to have it. */
  predicate Newest(verdicts: seq<Verdict>, source: string, k: nat)
  {
    && k < |verdicts| && From(verdicts[k], source)
    && forall j :: 0 <= j < |verdicts| && From(verdicts[j], source) ==>
         verdicts[j].image.sequence <= verdicts[k].image.sequence
         && (j < k ==> verdicts[j].image.sequence < verdicts[k].image.sequence)
  }

  lemma NewestExtends(front: seq<Verdict>, last: Verdict, source: string, k: nat)
    requires Newest(front, source, k)
    ensures Newest(front + [last], source,
                   if From(last, source) && last.image.sequence > front[k].image.sequence then |front| else k)
  {}

  /** Of every source that sent a valid frame, and of no other, the one with the highest sequence
      number is kept, and of equal ones the one that came first. */
  lemma {:induction false} NewestIsKept(verdicts: seq<Verdict>, source: string)
    ensures source in Collected(verdicts) <==> exists k :: 0 <= k < |verdicts| && From(verdicts[k], source)
    ensures source in Collected(verdicts) ==>
              exists k: nat :: Newest(verdicts, source, k) && verdicts[k].image == Collected(verdicts)[source]
  {
    if verdicts != [] {
      var front, last := verdicts[..|verdicts| - 1], verdicts[|verdicts| - 1];
      assert verdicts == front + [last];
      NewestIsKept(front, source);
      if source in Collected(front) {
        var k: nat :| Newest(front, source, k) && front[k].image == Collected(front)[source];
        NewestExtends(front, last, source, k);
      } else if From(last, source) {
        assert forall j :: 0 <= j < |front| ==> !From(front[j], source);
        assert Newest(verdicts, source, |front|);
      }
    }
  }

  /** One message from the Gateway, already parsed, and the time it arrived; of a state message, its size. */
  datatype Message = ImageMessage(payload: Dict, at: int) | StateMessage(payload: Dict, size: nat, at: int) | Garbage

  /** The frames and the state after some messages. */
  function ImagesAfter(images: map<string, Image>, messages: seq<Message>, required: seq<string>, d: Decoder)
    : map<string, Image>
  {
    if messages == [] then images
    else
      var before, m := ImagesAfter(images, messages[..|messages| - 1], required, d), messages[|messages| - 1];
      if m.ImageMessage? then Kept(before, Judge(m.payload, required, d, m.at)) else before
  }

  function StateAfter(state: Option<State>, messages: seq<Message>, d: Decoder): Option<State>
  {
    if messages == [] then state
    else
      var before, m := StateAfter(state, messages[..|messages| - 1], d), messages[|messages| - 1];
      if m.StateMessage? && m.size <= d.maxBytes then Some(State(m.at, m.payload)) else before
  }

  /** What each message comes to; only image messages are judged. */
  function Judged(messages: seq<Message>, required: seq<string>, d: Decoder): (r: seq<Verdict>)
    ensures |r| == |messages|
    ensures forall i :: 0 <= i < |r| ==>
              r[i] == if messages[i].ImageMessage? then Judge(messages[i].payload, required, d, messages[i].at) else Ignored
  {
    seq(|messages|, i requires 0 <= i < |messages| =>
      if messages[i].ImageMessage? then Judge(messages[i].payload, required, d, messages[i].at) else Ignored)
  }

  lemma {:induction false} ArrivalsAreCollected(messages: seq<Message>, required: seq<string>, d: Decoder)
    ensures ImagesAfter(map[], messages, required, d) == Collected(Judged(messages, required, d))
  {
    hide Judge;
    if messages != [] {
      var front := messages[..|messages| - 1];
      ArrivalsAreCollected(front, required, d);
      assert Judged(messages, required, d)[..|front|] == Judged(front, required, d);
    }
  }

  /** Whatever messages came in: of every source that sent a valid frame, and of no other, the one with the
      highest sequence number is kept, and of equal ones the one that came first. */
  lemma NewestArrivalIsKept(messages: seq<Message>, required: seq<string>, d: Decoder, source: string)
    ensures var images, verdicts := ImagesAfter(map[], messages, required, d), Judged(messages, required, d);
            && (source in images <==> exists k :: 0 <= k < |verdicts| && From(verdicts[k], source))
            && (source in images ==> exists k: nat :: Newest(verdicts, source, k) && verdicts[k].image == images[source])
  {
    hide Judge, Kept;
    ArrivalsAreCollected(messages, required, d);
    NewestIsKept(Judged(messages, required, d), source);
  }

  /** And every frame that is kept is valid, of a required source where some are required, and was received
      when the message it came in was. */
  lemma KeptFramesAreValid(messages: seq<Message>, required: seq<string>, d: Decoder, source: string)
    requires source in ImagesAfter(map[], messages, required, d)
    ensures var image := ImagesAfter(map[], messages, required, d)[source];
            && image.source == source && ValidFrame(image, required, d)
            && exists k :: 0 <= k < |messages| && messages[k].ImageMessage? && image.receivedAt == messages[k].at
                           && Judge(messages[k].payload, required, d, messages[k].at) == Frame(image)
  {
    var verdicts := Judged(messages, required, d);
    var images := ImagesAfter(map[], messages, required, d);
    NewestArrivalIsKept(messages, required, d, source);
    var k: nat :| Newest(verdicts, source, k) && verdicts[k].image == images[source];
    hide Judge, Collected, MatchesMediaType, ImagesAfter;
    FramesAreValid(messages[k].payload, required, d, messages[k].at);
  }

  /** The state that is kept is the last one that came and was not too large. */
  lemma {:induction false} LatestStateIsKept(messages: seq<Message>, d: Decoder)
    ensures var state := StateAfter(None, messages, d);
            if state.None? then forall k :: 0 <= k < |messages| && messages[k].StateMessage? ==> messages[k].size > d.maxBytes
            else exists k :: 0 <= k < |messages| && messages[k].StateMessage? && messages[k].size <= d.maxBytes
                             && state.value == State(messages[k].at, messages[k].payload)
                             && forall j :: k < j < |messages| && messages[j].StateMessage? ==> messages[j].size > d.maxBytes
  {
    if messages != [] {
      var front, last := messages[..|messages| - 1], messages[|messages| - 1];
      LatestStateIsKept(front, d);
      assert messages == front + [last];
      var state := StateAfter(None, messages, d);
      if last.StateMessage? && last.size <= d.maxBytes {
        assert state.value == State(messages[|front|].at, messages[|front|].payload);
      } else if state.Some? {
        var k :| 0 <= k < |front| && front[k].StateMessage? && front[k].size <= d.maxBytes
                 && state.value == State(front[k].at, front[k].payload)
                 && forall j :: k < j < |front| && front[j].StateMessage? ==> front[j].size > d.maxBytes;
        assert messages[k] == front[k];
      } else {
        assert forall k :: 0 <= k < |front| ==> messages[k] == front[k];
      }
    }
  }

  // ---- What a good message needs ---------------------------------------------------------------

  /** The first bytes a picture of each format has. */
  predicate HasMagic(data: Bytes, mediaType: string)
  {
    || (mediaType in {"image/jpeg", "image/jpg"} && |data| >= 3 && data[0] == 0xff && data[1] == 0xd8 && data[2] == 0xff)
    || (mediaType == "image/png" && |data| >= 8
        && data[..8] == [0x89, 0x50, 0x4e, 0x47, 0x0d, 0x0a, 0x1a, 0x0a])
    || (mediaType == "image/webp" && |data| >= 12
        && data[..4] == [0x52, 0x49, 0x46, 0x46] && data[8..12] == [0x57, 0x45, 0x42, 0x50])
  }

  lemma MagicMatches(data: Bytes, mediaType: string)
    ensures MatchesMediaType(data, mediaType) <==> HasMagic(data, mediaType)
  {}

  lemma {:induction false} TypeOnly(mediaType: string, rest: string)
    requires ';' !in mediaType && (rest == "" || rest[0] == ';')
    ensures BeforeSemicolon(mediaType + rest) == mediaType
  {
    if mediaType == "" {
      assert mediaType + rest == rest;
    } else {
      assert (mediaType + rest)[1..] == mediaType[1..] + rest && mediaType == [mediaType[0]] + mediaType[1..];
      TypeOnly(mediaType[1..], rest);
    }
  }

  /** A message that gives a wanted source, a sequence number, a finite time or none, a known media type,
      parameters or not, and as much base64 as the limit allows of a picture of that type becomes the
      frame it describes. */
  lemma GoodMessageIsTaken(payload: Dict, required: seq<string>, d: Decoder, now: int, mediaType: string, rest: string)
    requires "type" in payload && payload["type"] == JStr("image")
    requires "id" in payload && payload["id"].JStr? && payload["id"].s != ""
    requires required == [] || payload["id"].s in required
    requires "seq" in payload && d.toInt(payload["seq"]).Some? && d.toInt(payload["seq"]).value >= 0
    requires "timestamp" in payload && payload["timestamp"] != JNull ==> d.toFinite(payload["timestamp"]).Some?
    requires "content_type" in payload && payload["content_type"] == JStr(mediaType + rest)
    requires ';' !in mediaType && (rest == "" || rest[0] == ';')
    requires "data" in payload && payload["data"].JStr? && |payload["data"].s| <= (d.maxBytes + 2) / 3 * 4 + 4
    requires d.base64(payload["data"].s).Some? && 0 < |d.base64(payload["data"].s).value| <= d.maxBytes
    requires HasMagic(d.base64(payload["data"].s).value, Lower(mediaType))
    ensures Judge(payload, required, d, now) ==
            Frame(Image(payload["id"].s, d.toInt(payload["seq"]).value,
                        if "timestamp" in payload && payload["timestamp"] != JNull then d.toFinite(payload["timestamp"]) else None,
                        now, Lower(mediaType), d.base64(payload["data"].s).value))
  {
    TypeOnly(mediaType, rest);
    MagicMatches(d.base64(payload["data"].s).value, Lower(mediaType));
  }

  // ---- The collector ---------------------------------------------------------------------------

  datatype Gap = ImageGap(source: string) | StateGap

  /** The frame of this source will do: there is one, and as after-evidence it is newer than the one
      before and was received no earlier than the command ended. */
  predicate ImageDone(images: map<string, Image>, before: Option<Snapshot>, ended: Option<int>, source: string)
  {
    && source in images
    && (before.Some? ==>
          && source in before.value.images && images[source].sequence > before.value.images[source].sequence
          && ended.Some? && images[source].receivedAt >= ended.value)
  }

  predicate StateDone(state: Option<State>, ended: Option<int>)
  {
    state.Some? && (ended.Some? ==> state.value.receivedAt >= ended.value)
  }

  predicate Satisfied(images: map<string, Image>, state: Option<State>, required: seq<string>, requireState: bool,
                      before: Option<Snapshot>, ended: Option<int>)
  {
    && (forall i :: 0 <= i < |required| ==> ImageDone(images, before, ended, required[i]))
    && (requireState ==> StateDone(state, ended))
  }

  lemma OneMoreArrival(images: map<string, Image>, state: Option<State>, arrivals: seq<Message>, i: nat,
                       required: seq<string>, d: Decoder)
    requires i < |arrivals|
    ensures ImagesAfter(images, arrivals[..i + 1], required, d)
            == ImagesAfter(ImagesAfter(images, arrivals[..i], required, d), [arrivals[i]], required, d)
    ensures StateAfter(state, arrivals[..i + 1], d) == StateAfter(StateAfter(state, arrivals[..i], d), [arrivals[i]], d)
  {
    hide Judge, Kept;
    assert arrivals[..i + 1][..i] == arrivals[..i] && [arrivals[i]][..0] == [];
  }

  class Collector {
    const required: seq<string>
    const requireState: bool
    const decoder: Decoder
    var latestImages: map<string, Image>
    var latestState: Option<State>
    var errors: nat

    constructor (required: seq<string>, requireState: bool, decoder: Decoder)
      ensures this.required == required && this.requireState == requireState && this.decoder == decoder
      ensures Valid() && latestImages == map[] && latestState == None
    {
      this.required, this.requireState, this.decoder := required, requireState, decoder;
      latestImages, latestState, errors := map[], None, 0;
    }

    /** Each source maps to a frame of that source. */
    ghost predicate Valid()
      reads this
    {
      forall s :: s in latestImages ==> latestImages[s].source == s
    }

    ghost predicate ReadyFor(before: Option<Snapshot>, ended: Option<int>)
      reads this
    {
      Satisfied(latestImages, latestState, required, requireState, before, ended)
    }

    /** The newest valid frame of each source is kept; an older or equal sequence changes nothing. */
    method HandleImage(payload: Dict, now: int)
      requires Valid()
      modifies this`latestImages, this`errors
      ensures Valid()
      ensures latestImages == Kept(old(latestImages), Judge(payload, required, decoder, now))
    {
      var v := Judge(payload, required, decoder, now);
      match v
      case Ignored =>
      case Invalid => errors := if errors < 50 then errors + 1 else 50;
      case Frame(image) =>
        if image.source !in latestImages || image.sequence > latestImages[image.source].sequence {
          latestImages := latestImages[image.source := image];
        }
    }

    /** A state of admissible size replaces the last one; a larger one is only counted as an error. */
    method HandleState(payload: Dict, size: nat, now: int)
      modifies this`latestState, this`errors
      ensures latestState == if size <= decoder.maxBytes then Some(State(now, payload)) else old(latestState)
    {
      if size > decoder.maxBytes {
        errors := if errors < 50 then errors + 1 else 50;
      } else {
        latestState := Some(State(now, payload));
      }
    }

    method Ready(before: Option<Snapshot>, ended: Option<int>) returns (r: bool)
      ensures r <==> ReadyFor(before, ended)
    {
      var i := 0;
      while i < |required|
        invariant i <= |required| && forall k :: 0 <= k < i ==> ImageDone(latestImages, before, ended, required[k])
      {
        var source := required[i];
        if source !in latestImages { return false; }
        var current := latestImages[source];
        if before.Some? {
          if source !in before.value.images || current.sequence <= before.value.images[source].sequence
             || ended.None? || current.receivedAt < ended.value { return false; }
        }
        i := i + 1;
      }
      if requireState {
        if latestState.None? { return false; }
        if ended.Some? && latestState.value.receivedAt < ended.value { return false; }
      }
      return true;
    }

    /** Names exactly what keeps the collector from being ready: nothing is missing if and only if it
        is ready. */
    method Missing(before: Option<Snapshot>, ended: Option<int>) returns (missing: seq<Gap>)
      ensures missing == [] <==> ReadyFor(before, ended)
      ensures forall s :: ImageGap(s) in missing <==> s in required && !ImageDone(latestImages, before, ended, s)
      ensures StateGap in missing <==> requireState && !StateDone(latestState, ended)
    {
      missing := [];
      var i := 0;
      while i < |required|
        invariant i <= |required| && StateGap !in missing
        invariant forall s :: ImageGap(s) in missing <==>
                    s in required[..i] && !ImageDone(latestImages, before, ended, s)
      {
        var source := required[i];
        assert required[..i + 1] == required[..i] + [source];
        if source !in latestImages
           || (before.Some? && (source !in before.value.images
                                || latestImages[source].sequence <= before.value.images[source].sequence
                                || ended.None? || latestImages[source].receivedAt < ended.value)) {
          missing := missing + [ImageGap(source)];
        }
        i := i + 1;
      }
      assert required[..i] == required;
      if requireState && (latestState.None? || (ended.Some? && latestState.value.receivedAt < ended.value)) {
        missing := missing + [StateGap];
      }
      if missing == [] {
        forall k | 0 <= k < |required| ensures ImageDone(latestImages, before, ended, required[k]) {
          assert ImageGap(required[k]) !in missing && required[k] in required;
        }
      } else {
        ghost var gap := missing[0];
        assert gap in missing;
        match gap {
          case ImageGap(s) => assert s in required && !ImageDone(latestImages, before, ended, s);
          case StateGap =>
        }
      }
    }

    /** A state that was received before the end of the command is left out. */
    method TakeSnapshot(ended: Option<int>, now: int) returns (s: Snapshot)
      ensures s.images == latestImages && s.capturedAt == now
      ensures s.state == if latestState.Some? && !StateDone(latestState, ended) then None else latestState
    {
      var state := latestState;
      if state.Some? && ended.Some? && state.value.receivedAt < ended.value { state := None; }
      return Snapshot(now, latestImages, state);
    }

    method Handle(m: Message)
      requires Valid()
      modifies this
      ensures Valid()
      ensures latestImages == ImagesAfter(old(latestImages), [m], required, decoder)
      ensures latestState == StateAfter(old(latestState), [m], decoder)
    {
      assert [m][..0] == [];
      match m
      case ImageMessage(payload, at) => HandleImage(payload, at);
      case StateMessage(payload, size, at) => HandleState(payload, size, at);
      case Garbage => errors := if errors < 50 then errors + 1 else 50;
    }

    /** Waits through the messages that arrive before the deadline, up to the first after which everything
        required is there and fresh: then, and only then, a snapshot of what has arrived is returned.
        Otherwise the answer says what is missing. */
    method WaitForSnapshot(before: Option<Snapshot>, ended: Option<int>, arrivals: seq<Message>, now: int)
      returns (r: Option<Snapshot>, missing: seq<Gap>, ghost n: nat)
      requires Valid()
      modifies this
      ensures Valid() && n <= |arrivals|
      ensures latestImages == ImagesAfter(old(latestImages), arrivals[..n], required, decoder)
      ensures latestState == StateAfter(old(latestState), arrivals[..n], decoder)
      ensures forall k :: 0 <= k < n ==>
                !Satisfied(ImagesAfter(old(latestImages), arrivals[..k], required, decoder),
                           StateAfter(old(latestState), arrivals[..k], decoder), required, requireState, before, ended)
      ensures r.Some? <==> ReadyFor(before, ended)
      ensures r.Some? ==> Fresh(r.value, before, ended) && r.value.capturedAt == now && r.value.images == latestImages
      ensures r.None? ==> missing != [] && n == |arrivals|
    {
      n := 0;
      var i := 0;
      assert arrivals[..0] == [];
      while true
        invariant i <= |arrivals| && n == i && Valid()
        invariant latestImages == ImagesAfter(old(latestImages), arrivals[..i], required, decoder)
        invariant latestState == StateAfter(old(latestState), arrivals[..i], decoder)
        invariant forall k :: 0 <= k < i ==>
                    !Satisfied(ImagesAfter(old(latestImages), arrivals[..k], required, decoder),
                               StateAfter(old(latestState), arrivals[..k], decoder), required, requireState, before, ended)
        decreases |arrivals| - i
      {
        hide ImagesAfter, StateAfter, Satisfied, Kept, Judge;
        var ready := Ready(before, ended);
        if ready {
          var s := TakeSnapshot(ended, now);
          SnapshotIsFresh(s, before, ended);
          return Some(s), [], n;
        }
        if i == |arrivals| { break; }
        Handle(arrivals[i]);
        OneMoreArrival(old(latestImages), old(latestState), arrivals, i, required, decoder);
        i, n := i + 1, n + 1;
      }
      missing := Missing(before, ended);
      return None, missing, n;
    }

    lemma SnapshotIsFresh(s: Snapshot, before: Option<Snapshot>, ended: Option<int>)
      requires Valid() && ReadyFor(before, ended) && s.images == latestImages
      requires s.state == if latestState.Some? && !StateDone(latestState, ended) then None else latestState
      ensures Fresh(s, before, ended)
    {}

    /** What a returned snapshot guarantees. */
    ghost predicate Fresh(s: Snapshot, before: Option<Snapshot>, ended: Option<int>)
    {
      && (forall src :: src in s.images ==> s.images[src].source == src)
      && Satisfied(s.images, s.state, required, requireState, before, ended)
      && (s.state.Some? ==> StateDone(s.state, ended))
    }
  }
}
