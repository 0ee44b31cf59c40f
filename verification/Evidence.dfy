/** Evidence on disk: snapshots that survive the round trip through their files, and the exact
    condition under which a bundle of them is complete. */
module Evidence {
  import opened Common
  import opened Observation
  import Tasks = AgentTask

  datatype Phase = Before | After

  /** How file names are made: a label and a digest per source, a numeral, and a suffix. */
  datatype Naming = Naming(tag: string -> string, digest: string -> string, numeral: nat -> string)

  datatype Entry =
    | ImageEntry(source: string, sequence: nat, capturedAt: Option<real>, receivedAt: int, mediaType: string, uri: string)
    | StateEntry(receivedAt: int, uri: string)

  /** What a file holds; the JSON text of states and manifests is read back as written. */
  datatype Content =
    | ImageBytes(data: Bytes)
    | StateJson(payload: Dict)
    | Manifest(phase: Phase, capturedAt: int, entries: seq<Entry>)

  type Files = map<string, Content>

  function PhaseName(p: Phase): string
  {
    match p case Before => "before" case After => "after"
  }

  function Suffix(mediaType: string): string
  {
    match Lower(mediaType)
    case "image/jpeg" => "jpg"
    case "image/jpg" => "jpg"
    case "image/png" => "png"
    case "image/webp" => "webp"
    case _ => "img"
  }

  function ImageFile(p: Phase, i: Image, n: Naming): string
  {
    "evidence/" + PhaseName(p) + "_" + n.tag(i.source) + "_" + n.digest(i.source) + "_" + n.numeral(i.sequence)
    + "." + Suffix(i.mediaType)
  }

  function StateFile(p: Phase): string
  {
    "evidence/" + PhaseName(p) + "_robot_state.json"
  }

  function SnapshotFile(p: Phase): string
  {
    PhaseName(p) + "_snapshot.json"
  }

  /** The file belongs to this phase: its name, or its name below `evidence/`, starts with it. */
  predicate OfPhase(name: string, p: Phase)
  {
    PhaseName(p) <= name || "evidence/" + PhaseName(p) <= name
  }

  lemma PhasesApart(name: string)
    ensures !(OfPhase(name, Before) && OfPhase(name, After))
  {
    assert PhaseName(Before)[0] == 'b' && PhaseName(After)[0] == 'a';
    var b, a := "evidence/" + PhaseName(Before), "evidence/" + PhaseName(After);
    assert b[9] == 'b' && a[9] == 'a' && b[0] == 'e' && a[0] == 'e';
  }

  lemma NamesOfPhase(p: Phase, i: Image, n: Naming)
    ensures OfPhase(ImageFile(p, i, n), p) && OfPhase(StateFile(p), p) && OfPhase(SnapshotFile(p), p)
    ensures SnapshotFile(p) != ImageFile(p, i, n) && SnapshotFile(p) != StateFile(p)
  {}

  // ---- Writing -------------------------------------------------------------------------------

  /** The images of a snapshot in the order in which they are written. */
  ghost predicate Lists(sources: seq<string>, s: Snapshot)
  {
    Distinct(sources) && forall x :: x in sources <==> x in s.images
  }

  /** The file names planned for the images and for the state are all different. */
  predicate NoClash(p: Phase, s: Snapshot, sources: seq<string>, n: Naming)
    requires forall x :: x in sources ==> x in s.images
  {
    && (forall i, j :: 0 <= i < j < |sources| ==>
          ImageFile(p, s.images[sources[i]], n) != ImageFile(p, s.images[sources[j]], n))
    && (s.state.Some? ==>
          forall i :: 0 <= i < |sources| ==> ImageFile(p, s.images[sources[i]], n) != StateFile(p))
  }

  predicate Labelled(s: Snapshot)
  {
    forall x :: x in s.images ==> s.images[x].source == x
  }

  function EntryOf(p: Phase, i: Image, n: Naming): Entry
  {
    ImageEntry(i.source, i.sequence, i.capturedAt, i.receivedAt, i.mediaType, ImageFile(p, i, n))
  }

  function Entries(p: Phase, s: Snapshot, sources: seq<string>, n: Naming): (r: seq<Entry>)
    requires forall x :: x in sources ==> x in s.images
    ensures |r| == |sources| + if s.state.Some? then 1 else 0
    ensures forall i :: 0 <= i < |sources| ==> r[i] == EntryOf(p, s.images[sources[i]], n)
    ensures s.state.Some? ==> r[|sources|] == StateEntry(s.state.value.receivedAt, StateFile(p))
  {
    seq(|sources|, i requires 0 <= i < |sources| => EntryOf(p, s.images[sources[i]], n))
    + if s.state.Some? then [StateEntry(s.state.value.receivedAt, StateFile(p))] else []
  }

  /** Everything a complete write leaves on disk. */
  ghost predicate OnDisk(files: Files, p: Phase, s: Snapshot, sources: seq<string>, n: Naming)
    requires forall x :: x in sources ==> x in s.images
  {
    && (forall i :: 0 <= i < |sources| ==>
          var f := ImageFile(p, s.images[sources[i]], n);
          f in files && files[f] == ImageBytes(s.images[sources[i]].data))
    && (s.state.Some? ==> StateFile(p) in files && files[StateFile(p)] == StateJson(s.state.value.payload))
    && SnapshotFile(p) in files && files[SnapshotFile(p)] == Manifest(p, s.capturedAt, Entries(p, s, sources, n))
  }

  class EvidenceWriter {
    const naming: Naming
    var files: Files

    constructor (naming: Naming, files: Files)
      ensures this.naming == naming && this.files == files
    {
      this.naming, this.files := naming, files;
    }

    /** Only files of this phase may differ. */
    twostate predicate OnlyPhase(p: Phase)
      reads this
    {
      forall f :: !OfPhase(f, p) ==> (f in files <==> f in old(files)) && (f in files ==> files[f] == old(files)[f])
    }

    /** The images of a planned snapshot, as many as the disk takes. */
    method WriteImages(p: Phase, s: Snapshot, sources: seq<string>, budget: nat) returns (left: int)
      requires Lists(sources, s) && NoClash(p, s, sources, naming)
      modifies this`files
      ensures OnlyPhase(p) && left == budget - |sources|
      ensures left >= 0 ==> forall k :: 0 <= k < |sources| ==>
                              Stored(ImageFile(p, s.images[sources[k]], naming), ImageBytes(s.images[sources[k]].data))
    {
      hide ImageFile, StateFile, OfPhase;
      var i := 0;
      while i < |sources|
        invariant i <= |sources| && i <= budget && OnlyPhase(p)
        invariant forall k :: 0 <= k < i ==>
                    Stored(ImageFile(p, s.images[sources[k]], naming), ImageBytes(s.images[sources[k]].data))
      {
        if i == budget { return budget - |sources|; }
        var image := s.images[sources[i]];
        NamesOfPhase(p, image, naming);
        files := files[ImageFile(p, image, naming) := ImageBytes(image.data)];
        i := i + 1;
      }
      return budget - i;
    }

    ghost predicate Stored(name: string, c: Content)
      reads this
    {
      name in files && files[name] == c
    }

    /** Plans every path before the first write, so that a clash or a mislabelled image writes
        nothing; then writes the artifacts and, last, the manifest. The disk may fail before any
        write: `budget` writes succeed. */
    method WriteSnapshot(p: Phase, s: Snapshot, sources: seq<string>, budget: nat) returns (ok: bool)
      requires Lists(sources, s)
      modifies this`files
      ensures OnlyPhase(p)
      ensures ok <==> Labelled(s) && NoClash(p, s, sources, naming)
                      && budget > |sources| + if s.state.Some? then 1 else 0
      ensures ok ==> OnDisk(files, p, s, sources, naming)
      ensures !(Labelled(s) && NoClash(p, s, sources, naming)) ==> files == old(files)
    {
      hide ImageFile, StateFile, SnapshotFile, OfPhase, Labelled, Entries;
      var planned := Plan(p, s, sources);
      if !planned { return false; }
      StateOfPhase(p);
      forall k | 0 <= k < |sources| ensures SnapshotFile(p) != ImageFile(p, s.images[sources[k]], naming) {
        NamesOfPhase(p, s.images[sources[k]], naming);
      }
      var left := WriteImages(p, s, sources, budget);
      if s.state.Some? {
        if left <= 0 { return false; }
        files := files[StateFile(p) := StateJson(s.state.value.payload)];
        left := left - 1;
      }
      if left <= 0 { return false; }
      files := files[SnapshotFile(p) := Manifest(p, s.capturedAt, Entries(p, s, sources, naming))];
      return true;
    }

    method Plan(p: Phase, s: Snapshot, sources: seq<string>) returns (ok: bool)
      requires Lists(sources, s)
      ensures ok <==> Labelled(s) && NoClash(p, s, sources, naming)
    {
      hide ImageFile, StateFile;
      var planned: set<string> := {};
      var i := 0;
      while i < |sources|
        invariant i <= |sources| && forall k :: 0 <= k < i ==> s.images[sources[k]].source == sources[k]
        invariant forall f :: f in planned <==> exists k :: 0 <= k < i && ImageFile(p, s.images[sources[k]], naming) == f
        invariant forall k, l :: 0 <= k < l < i ==>
                    ImageFile(p, s.images[sources[k]], naming) != ImageFile(p, s.images[sources[l]], naming)
      {
        var image := s.images[sources[i]];
        if image.source != sources[i] { return false; }
        var path := ImageFile(p, image, naming);
        if path in planned { return false; }
        planned := planned + {path};
        i := i + 1;
      }
      if s.state.Some? && StateFile(p) in planned { return false; }
      forall x | x in s.images ensures s.images[x].source == x { assert x in sources; }
      return true;
    }
  }

  lemma StateOfPhase(p: Phase)
    ensures OfPhase(StateFile(p), p) && OfPhase(SnapshotFile(p), p) && SnapshotFile(p) != StateFile(p)
  {}

  // ---- Reading back ----------------------------------------------------------------------------

  /** `_load_snapshot`'s pass over the entries of a manifest. */
  function LoadFrom(files: Files, entries: seq<Entry>, images: map<string, Image>, state: Option<State>)
    : Option<(map<string, Image>, Option<State>)>
  {
    if entries == [] then Some((images, state))
    else if entries[0].uri !in files then None
    else
      match (entries[0], files[entries[0].uri])
      case (ImageEntry(source, sequence, capturedAt, receivedAt, mediaType, _), ImageBytes(data)) =>
        LoadFrom(files, entries[1..],
                 images[source := Image(source, sequence, capturedAt, receivedAt, mediaType, data)], state)
      case (StateEntry(receivedAt, _), StateJson(payload)) =>
        LoadFrom(files, entries[1..], images, Some(State(receivedAt, payload)))
      case _ => None
  }

  function Loaded(files: Files, ref: string): Option<Snapshot>
  {
    if ref !in files || !files[ref].Manifest? then None
    else
      var r := LoadFrom(files, files[ref].entries, map[], None);
      if r.None? then None else Some(Snapshot(files[ref].capturedAt, r.value.0, r.value.1))
  }

  method LoadSnapshot(files: Files, ref: string) returns (r: Option<Snapshot>)
    ensures r == Loaded(files, ref)
  {
    if ref !in files || !files[ref].Manifest? { return None; }
    var entries := files[ref].entries;
    var images: map<string, Image>, state: Option<State> := map[], None;
    var i := 0;
    while i < |entries|
      invariant i <= |entries|
      invariant LoadFrom(files, entries, map[], None) == LoadFrom(files, entries[i..], images, state)
    {
      var e := entries[i];
      assert entries[i..][0] == e && entries[i..][1..] == entries[i + 1..];
      if e.uri !in files { return None; }
      match (e, files[e.uri]) {
        case (ImageEntry(source, sequence, capturedAt, receivedAt, mediaType, _), ImageBytes(data)) =>
          images := images[source := Image(source, sequence, capturedAt, receivedAt, mediaType, data)];
        case (StateEntry(receivedAt, _), StateJson(payload)) =>
          state := Some(State(receivedAt, payload));
        case _ => return None;
      }
      i := i + 1;
    }
    assert entries[i..] == [];
    return Some(Snapshot(files[ref].capturedAt, images, state));
  }

  /** The images of the first `n` sources. */
  function FirstImages(s: Snapshot, sources: seq<string>, n: nat): map<string, Image>
    requires n <= |sources| && forall x :: x in sources ==> x in s.images
  {
    if n == 0 then map[] else FirstImages(s, sources, n - 1)[sources[n - 1] := s.images[sources[n - 1]]]
  }

  lemma {:induction false} FirstImagesAll(s: Snapshot, sources: seq<string>, n: nat)
    requires n <= |sources| && forall x :: x in sources ==> x in s.images
    ensures forall x :: x in FirstImages(s, sources, n) <==> x in sources[..n]
    ensures forall x :: x in FirstImages(s, sources, n) ==> FirstImages(s, sources, n)[x] == s.images[x]
  {
    if n > 0 {
      FirstImagesAll(s, sources, n - 1);
      assert sources[..n] == sources[..n - 1] + [sources[n - 1]];
    }
  }

  lemma {:induction false} LoadImages(files: Files, p: Phase, s: Snapshot, sources: seq<string>, n: Naming, i: nat)
    requires (forall x :: x in sources ==> x in s.images) && Labelled(s) && i <= |sources|
    requires OnDisk(files, p, s, sources, n)
    ensures LoadFrom(files, Entries(p, s, sources, n)[i..], FirstImages(s, sources, i), None)
            == Some((FirstImages(s, sources, |sources|), s.state))
    decreases |sources| - i
  {
    hide ImageFile, StateFile, SnapshotFile;
    var entries := Entries(p, s, sources, n);
    if i < |sources| {
      assert entries[i..][0] == EntryOf(p, s.images[sources[i]], n) && entries[i..][1..] == entries[i + 1..];
      assert s.images[sources[i]].source == sources[i];
      LoadImages(files, p, s, sources, n, i + 1);
    } else if s.state.Some? {
      assert entries[i..][0] == StateEntry(s.state.value.receivedAt, StateFile(p)) && entries[i..][1..] == [];
    } else {
      assert entries[i..] == [];
    }
  }

  /** A snapshot written to disk is read back as it was. */
  lemma SnapshotRoundTrip(files: Files, p: Phase, s: Snapshot, sources: seq<string>, n: Naming)
    requires Lists(sources, s) && Labelled(s) && OnDisk(files, p, s, sources, n)
    ensures Loaded(files, SnapshotFile(p)) == Some(s)
  {
    hide ImageFile, StateFile, SnapshotFile, LoadFrom;
    LoadImages(files, p, s, sources, n, 0);
    assert Entries(p, s, sources, n)[0..] == Entries(p, s, sources, n);
    FirstImagesAll(s, sources, |sources|);
    assert sources[..|sources|] == sources;
    assert FirstImages(s, sources, |sources|) == s.images;
  }

  /** Whatever happens to the files of the other phase, a snapshot stays on disk. */
  lemma OtherPhaseIntact(files: Files, files': Files, p: Phase, q: Phase, s: Snapshot, sources: seq<string>, n: Naming)
    requires p != q && (forall x :: x in sources ==> x in s.images) && OnDisk(files, p, s, sources, n)
    requires forall f :: !OfPhase(f, q) ==> (f in files' <==> f in files) && (f in files' ==> files'[f] == files[f])
    ensures OnDisk(files', p, s, sources, n)
  {
    hide ImageFile, StateFile, SnapshotFile, OfPhase, Entries;
    StateOfPhase(p);
    PhasesApart(StateFile(p));
    PhasesApart(SnapshotFile(p));
    forall i | 0 <= i < |sources|
      ensures !OfPhase(ImageFile(p, s.images[sources[i]], n), q)
    {
      NamesOfPhase(p, s.images[sources[i]], n);
      PhasesApart(ImageFile(p, s.images[sources[i]], n));
    }
  }

  // ---- The bundle ------------------------------------------------------------------------------

  datatype Lack = NoSnapshot(phase: Phase) | NoImage(phase: Phase, source: string) | NoState(phase: Phase)
                | NoKind(phase: Phase, kind: string) | NoTerminal

  /** The bundle holds an artifact of this kind for the phase; no other kinds are ever collected. */
  predicate HasKind(s: Snapshot, kind: string)
  {
    (kind == "rgb_image" && s.images != map[]) || (kind == "robot_state" && s.state.Some?)
  }

  predicate PhaseComplete(s: Option<Snapshot>, sources: seq<string>, kinds: seq<string>)
  {
    && s.Some?
    && (forall i :: 0 <= i < |sources| ==> sources[i] in s.value.images)
    && (forall i :: 0 <= i < |kinds| ==> HasKind(s.value, kinds[i]))
  }

  /** What the reference of a phase leads to, if anything. */
  function Referenced(files: Files, ref: Option<string>): Option<Snapshot>
  {
    if ref.None? then None else Loaded(files, ref.value)
  }

  /** Sources and kinds are complete exactly when nothing of the phase is missing. */
  method PhaseLacks(p: Phase, s: Option<Snapshot>, sources: seq<string>, kinds: seq<string>)
    returns (missing: seq<Lack>)
    ensures missing == [] <==> s.Some? && (forall i :: 0 <= i < |sources| ==> sources[i] in s.value.images)
                               && ("robot_state" in kinds ==> s.value.state.Some?)
  {
    if s.None? { return [NoSnapshot(p)]; }
    missing := [];
    var i := 0;
    while i < |sources|
      invariant i <= |sources| && (missing == [] <==> forall k :: 0 <= k < i ==> sources[k] in s.value.images)
    {
      if sources[i] !in s.value.images { missing := missing + [NoImage(p, sources[i])]; }
      i := i + 1;
    }
    if s.value.state.None? && "robot_state" in kinds { missing := missing + [NoState(p)]; }
  }

  predicate FirstKinds(s: Option<Snapshot>, kinds: seq<string>, n: nat)
    requires n <= |kinds|
  {
    forall i :: 0 <= i < n ==> s.Some? && HasKind(s.value, kinds[i])
  }

  method KindLacks(p: Phase, s: Option<Snapshot>, kinds: seq<string>, already: seq<Lack>) returns (missing: seq<Lack>)
    ensures missing == [] <==> already == [] && FirstKinds(s, kinds, |kinds|)
  {
    missing := already;
    var i := 0;
    while i < |kinds|
      invariant i <= |kinds|
      invariant missing == [] <==> already == [] && FirstKinds(s, kinds, i)
    {
      if s.None? || !HasKind(s.value, kinds[i]) {
        if NoKind(p, kinds[i]) !in missing { missing := missing + [NoKind(p, kinds[i])]; }
        assert NoKind(p, kinds[i]) in missing && !FirstKinds(s, kinds, i + 1);
      }
      i := i + 1;
    }
  }

  /** A bundle is complete exactly when both snapshots load, the end of the command is known, and
      every required source and kind occurs in both phases. */
  method WriteBundle(files: Files, beforeRef: Option<string>, afterRef: Option<string>, ended: Option<int>,
                     sources: seq<string>, kinds: seq<string>) returns (missing: seq<Lack>)
    ensures missing == [] <==>
              PhaseComplete(Referenced(files, beforeRef), sources, kinds)
              && PhaseComplete(Referenced(files, afterRef), sources, kinds) && ended.Some?
  {
    var before: Option<Snapshot>, after: Option<Snapshot> := None, None;
    if beforeRef.Some? { before := LoadSnapshot(files, beforeRef.value); }
    if afterRef.Some? { after := LoadSnapshot(files, afterRef.value); }
    var first := PhaseLacks(Before, before, sources, kinds);
    var second := PhaseLacks(After, after, sources, kinds);
    missing := KindLacks(Before, before, kinds, first + second);
    missing := KindLacks(After, after, kinds, missing);
    if ended.None? { missing := missing + [NoTerminal]; }
    assert PhaseComplete(before, sources, kinds) && PhaseComplete(after, sources, kinds) ==> first == [] && second == [];
  }

  // ---- Capturing after a command ---------------------------------------------------------------

  method InSomeOrder(images: map<string, Image>) returns (sources: seq<string>)
    ensures Distinct(sources) && forall x :: x in sources <==> x in images
  {
    sources := [];
    var todo := images.Keys;
    while todo != {}
      invariant todo <= images.Keys && Distinct(sources)
      invariant forall x :: x in sources <==> x in images && x !in todo
      decreases |todo|
    {
      var x :| x in todo;
      todo := todo - {x};
      sources := sources + [x];
    }
  }

  /** The latest update of any execution record of the task, or the present when it has none. */
  method LatestUpdate(task: Tasks.Task, now: int) returns (ended: int)
    ensures var records := Tasks.Records(task);
            && (forall i :: 0 <= i < |records| ==> records[i].updatedAt <= ended)
            && (if records == [] then ended == now else exists i :: 0 <= i < |records| && records[i].updatedAt == ended)
  {
    var records := Tasks.Records(task);
    if records == [] { return now; }
    ended := records[0].updatedAt;
    var i := 1;
    while i < |records|
      invariant 1 <= i <= |records| && exists k :: 0 <= k < i && records[k].updatedAt == ended
      invariant forall k :: 0 <= k < i ==> records[k].updatedAt <= ended
    {
      if records[i].updatedAt > ended { ended := records[i].updatedAt; }
      i := i + 1;
    }
  }

  /** The required sources are in both snapshots, the later frames newer and received no earlier
      than the last update of any execution record. */
  predicate NewerThanAll(before: Snapshot, after: Snapshot, sources: seq<string>, task: Tasks.Task)
  {
    forall i :: 0 <= i < |sources| ==>
      && sources[i] in before.images && sources[i] in after.images
      && after.images[sources[i]].sequence > before.images[sources[i]].sequence
      && forall k :: 0 <= k < |Tasks.Records(task)| ==>
           after.images[sources[i]].receivedAt >= Tasks.Records(task)[k].updatedAt
  }

  /** Captures the time after a command and closes the bundle. The before snapshot stays on disk as
      it was; and a complete bundle has fresh evidence from every required source. */
  method CaptureAfter(w: EvidenceWriter, c: Collector, beforeRef: Option<string>, ghost before: Snapshot,
                      ghost order: seq<string>, task: Tasks.Task, kinds: seq<string>, arrivals: seq<Message>,
                      now: int, budget: nat)
    returns (complete: bool)
    requires c.Valid() && c.requireState == ("robot_state" in kinds)
    requires beforeRef.Some? ==> beforeRef.value == SnapshotFile(Before) && Lists(order, before) && Labelled(before)
                                 && OnDisk(w.files, Before, before, order, w.naming)
    modifies w`files, c
    ensures beforeRef.Some? ==> Loaded(w.files, beforeRef.value) == Some(before)
    ensures complete ==>
              && beforeRef.Some? && Loaded(w.files, SnapshotFile(After)).Some?
              && NewerThanAll(before, Loaded(w.files, SnapshotFile(After)).value, c.required, task)
              && PhaseComplete(Loaded(w.files, SnapshotFile(After)), c.required, kinds)
    ensures complete && "robot_state" in kinds ==>
              var s := Loaded(w.files, SnapshotFile(After)).value.state;
              s.Some? && forall k :: 0 <= k < |Tasks.Records(task)| ==>
                           s.value.receivedAt >= Tasks.Records(task)[k].updatedAt
  {
    hide ImageFile, StateFile, SnapshotFile, OfPhase, LoadFrom, OnDisk, NoClash, Entries;
    var ended := LatestUpdate(task, now);
    var after: Option<Snapshot>, lacking: seq<Gap> := None, [];
    ghost var arrived: nat := 0;
    if beforeRef.Some? {
      SnapshotRoundTrip(w.files, Before, before, order, w.naming);
      var loaded := LoadSnapshot(w.files, beforeRef.value);
      after, lacking, arrived := c.WaitForSnapshot(loaded, Some(ended), arrivals, now);
    } else {
      after, lacking, arrived := c.WaitForSnapshot(None, None, arrivals, now);
    }
    var afterRef: Option<string> := None;
    ghost var files0 := w.files;
    if after.Some? {
      var sources := InSomeOrder(after.value.images);
      var written := w.WriteSnapshot(After, after.value, sources, budget);
      if beforeRef.Some? { OtherPhaseIntact(files0, w.files, Before, After, before, order, w.naming); }
      if written {
        afterRef := Some(SnapshotFile(After));
        SnapshotRoundTrip(w.files, After, after.value, sources, w.naming);
      }
    }
    if beforeRef.Some? { SnapshotRoundTrip(w.files, Before, before, order, w.naming); }
    var missing := WriteBundle(w.files, beforeRef, afterRef, Some(ended), c.required, kinds);
    complete := missing == [];
    assert complete && "robot_state" in kinds ==> HasKind(after.value, "robot_state");
  }
}
