/** Checking and extracting a Skill archive against its embedded inventory, and packaging one. Tar,
    gzip, JSON text, SHA-256 and Unicode folding are functions the archive code is handed. */
module Archives {
  import opened Common
  import opened ArchivePaths

  datatype Kind = Regular | Directory | Link | Special
  datatype Member = Member(name: string, kind: Kind, size: nat, data: Bytes)
  datatype Archive = Archive(members: seq<Member>, compressed: nat, sha: string)
  datatype Limits = Limits(maxFiles: nat, maxFileSize: nat, maxTotal: nat, maxRatio: nat)

  const DEFAULT_LIMITS := Limits(10_000, 536_870_912, 2_147_483_648, 200)

  /** A decoded inventory: a JSON object whose `files` is a list or an ordered mapping, or not. */
  datatype Inventory = Malformed | Listed(items: seq<Json>) | Mapped(entries: seq<(string, Json)>)
  datatype Expected = Expected(digest: string, size: Option<nat>)

  datatype Codec = Codec(hash: Bytes -> string, fold: string -> string, decode: Bytes -> Inventory)

  datatype Node = File(data: Bytes) | Dir
  type Tree = map<seq<string>, Node>

  // ---- The embedded inventory ------------------------------------------------------------------

  predicate HexDigit(c: char)
  {
    '0' <= c <= '9' || 'a' <= c <= 'f' || 'A' <= c <= 'F'
  }

  predicate Digest(s: string)
  {
    |s| == 64 && forall i :: 0 <= i < |s| ==> HexDigit(s[i])
  }

  /** The entries of a list as they are; those of a mapping with their key as the path, where an
      entry that is neither a digest nor an object is passed over. */
  function FromMapping(entries: seq<(string, Json)>): seq<Json>
  {
    if entries == [] then []
    else
      var (path, item) := entries[0];
      (match item
       case JStr(_) => [JObj(map["path" := JStr(path), "sha256" := item])]
       case JObj(fields) => [JObj(map["path" := JStr(path)] + fields)]
       case _ => [])
      + FromMapping(entries[1..])
  }

  function Items(v: Inventory): Option<seq<Json>>
  {
    match v
    case Malformed => None
    case Listed(items) => Some(items)
    case Mapped(entries) => Some(FromMapping(entries))
  }

  predicate SizeField(fields: Dict)
  {
    "size" !in fields || fields["size"].JNull? || (fields["size"].JNum? && fields["size"].n >= 0)
  }

  predicate ValidEntry(item: Json)
  {
    && item.JObj?
    && "path" in item.fields && item.fields["path"].JStr? && SafePath(item.fields["path"].s).Some?
    && "sha256" in item.fields && item.fields["sha256"].JStr? && Digest(item.fields["sha256"].s)
    && SizeField(item.fields)
  }

  function EntryPath(item: Json): string
    requires ValidEntry(item)
  {
    PathText(item.fields["path"].s)
  }

  function EntryOf(item: Json): Expected
    requires ValidEntry(item)
  {
    Expected(Lower(item.fields["sha256"].s),
             if "size" in item.fields && item.fields["size"].JNum? then Some(item.fields["size"].n) else None)
  }

  /** Every entry is valid, and no two name the same path. */
  predicate ValidItems(items: seq<Json>)
  {
    && (forall i :: 0 <= i < |items| ==> ValidEntry(items[i]))
    && (forall i, j :: 0 <= i < j < |items| ==> EntryPath(items[i]) != EntryPath(items[j]))
  }

  function Table(items: seq<Json>): map<string, Expected>
    requires ValidItems(items)
  {
    map i | 0 <= i < |items| :: EntryPath(items[i]) := EntryOf(items[i])
  }

  /** `_parse_file_manifest`, as the map it yields. */
  function Parsed(v: Inventory): Option<map<string, Expected>>
  {
    var items := Items(v);
    if items.None? || !ValidItems(items.value) then None
    else Some(Table(items.value))
  }

  /** A table of the entries seen so far. */
  ghost predicate Tabulates(result: map<string, Expected>, items: seq<Json>)
  {
    && ValidItems(items)
    && (forall p :: p in result <==> exists k :: 0 <= k < |items| && EntryPath(items[k]) == p)
    && (forall k :: 0 <= k < |items| ==> result[EntryPath(items[k])] == EntryOf(items[k]))
  }

  lemma TabulatesNext(result: map<string, Expected>, items: seq<Json>, i: nat)
    requires i < |items| && Tabulates(result, items[..i])
    ensures ValidEntry(items[i]) && EntryPath(items[i]) !in result ==>
              Tabulates(result[EntryPath(items[i]) := EntryOf(items[i])], items[..i + 1])
    ensures !ValidEntry(items[i]) || EntryPath(items[i]) in result ==> !ValidItems(items)
  {
    hide ValidEntry, EntryPath, EntryOf;
    assert items[..i + 1] == items[..i] + [items[i]];
  }

  lemma Tabulated(items: seq<Json>, result: map<string, Expected>)
    requires Tabulates(result, items)
    ensures result == Table(items)
  {}

  method ParseFileManifest(v: Inventory) returns (r: Option<map<string, Expected>>)
    ensures r == Parsed(v)
  {
    hide ValidEntry, EntryPath, EntryOf, Items, Table;
    var listed := Items(v);
    if listed.None? { return None; }
    var items := listed.value;
    var result: map<string, Expected> := map[];
    var i := 0;
    while i < |items|
      invariant i <= |items| && Tabulates(result, items[..i])
    {
      hide Tabulates, ValidItems;
      TabulatesNext(result, items, i);
      if !ValidEntry(items[i]) { return None; }
      var path := EntryPath(items[i]);
      if path in result { return None; }
      result := result[path := EntryOf(items[i])];
      i := i + 1;
    }
    assert items[..i] == items;
    Tabulated(items, result);
    return Some(result);
  }

  // ---- The members -----------------------------------------------------------------------------

  const MANIFEST := "archive-manifest.json"
  const LEGACY_MANIFEST := ".paos-manifest.json"

  predicate ManifestName(path: string)
  {
    path == MANIFEST || path == LEGACY_MANIFEST
  }

  predicate MemberOk(m: Member, l: Limits)
  {
    SafePath(m.name).Some? && (m.kind.Directory? || (m.kind.Regular? && m.size <= l.maxFileSize))
  }

  /** Safe, plain members whose paths stay apart even after Unicode normalization. */
  predicate MembersOk(members: seq<Member>, l: Limits, fold: string -> string)
  {
    && (forall i :: 0 <= i < |members| ==> MemberOk(members[i], l))
    && (forall i, j :: 0 <= i < j < |members| ==>
          fold(PathText(members[i].name)) != fold(PathText(members[j].name)))
  }

  function Total(members: seq<Member>): nat
  {
    if members == [] then 0
    else Total(members[..|members| - 1])
         + if members[|members| - 1].kind.Regular? then members[|members| - 1].size else 0
  }

  lemma TotalNone(members: seq<Member>)
    ensures Total(members[..0]) == 0
  {}

  lemma TotalNext(members: seq<Member>, i: nat)
    requires i < |members|
    ensures Total(members[..i + 1])
            == Total(members[..i]) + if members[i].kind.Regular? then members[i].size else 0
  {
    assert members[..i + 1][..i] == members[..i];
  }

  /** The checks that look at every header before anything is written. */
  method Scan(members: seq<Member>, l: Limits, fold: string -> string) returns (ok: bool, total: nat)
    ensures ok <==> MembersOk(members, l, fold)
    ensures ok ==> total == Total(members)
  {
    hide SafePath, PathText, Total;
    TotalNone(members);
    var seen: set<string>, collisions: set<string> := {}, {};
    total := 0;
    var i := 0;
    while i < |members|
      invariant i <= |members| && MembersOk(members[..i], l, fold) && total == Total(members[..i])
      invariant forall p :: p in seen <==> exists k :: 0 <= k < i && PathText(members[k].name) == p
      invariant forall p :: p in collisions <==> exists k :: 0 <= k < i && fold(PathText(members[k].name)) == p
    {
      var m := members[i];
      if SafePath(m.name).None? { return false, total; }
      var path := PathText(m.name);
      if path in seen { return false, total; }
      seen := seen + {path};
      if fold(path) in collisions { return false, total; }
      collisions := collisions + {fold(path)};
      if !m.kind.Regular? && !m.kind.Directory? { return false, total; }
      if m.kind.Regular? {
        if m.size > l.maxFileSize { return false, total; }
        total := total + m.size;
      }
      TotalNext(members, i);
      i := i + 1;
    }
    assert members[..i] == members;
    return true, total;
  }

  function Parts(m: Member): seq<string>
    requires SafePath(m.name).Some?
  {
    SafePath(m.name).value
  }

  /** A member whose bytes are written below the destination. */
  predicate Payload(m: Member)
    requires SafePath(m.name).Some?
  {
    m.kind.Regular? && !ManifestName(PathText(m.name))
  }

  predicate AllSafe(members: seq<Member>)
  {
    forall i :: 0 <= i < |members| ==> SafePath(members[i].name).Some?
  }

  predicate FileAt(m: Member, path: string)
  {
    m.kind.Regular? && SafePath(m.name).Some? && PathText(m.name) == path
  }

  /** Position of the first regular member with this path, or the number of members. */
  function FindMember(members: seq<Member>, path: string): (i: nat)
    ensures i <= |members| && (i < |members| ==> FileAt(members[i], path))
    ensures forall k :: 0 <= k < i ==> !FileAt(members[k], path)
  {
    if members == [] then 0 else if FileAt(members[0], path) then 0 else FindMember(members[1..], path) + 1
  }

  /** The inventory the archive carries: under its current name, else under its old one. */
  function Embedded(members: seq<Member>, decode: Bytes -> Inventory): Option<map<string, Expected>>
  {
    var i := FindMember(members, MANIFEST);
    var j := FindMember(members, LEGACY_MANIFEST);
    if i < |members| then Parsed(decode(members[i].data))
    else if j < |members| then Parsed(decode(members[j].data))
    else None
  }

  /** The inventory lists the payload files, all of them and nothing else. */
  predicate ListsExactly(expected: map<string, Expected>, members: seq<Member>)
    requires AllSafe(members)
  {
    && (forall i :: 0 <= i < |members| && Payload(members[i]) ==> PathText(members[i].name) in expected)
    && (forall p :: p in expected ==>
          exists i :: 0 <= i < |members| && Payload(members[i]) && PathText(members[i].name) == p)
  }

  predicate DataOk(m: Member, expected: Option<map<string, Expected>>, hash: Bytes -> string)
    requires SafePath(m.name).Some?
  {
    && |m.data| == m.size
    && (expected.Some? && PathText(m.name) in expected.value ==>
          var e := expected.value[PathText(m.name)];
          (e.size.Some? ==> |m.data| == e.size.value) && hash(m.data) == e.digest)
  }

  predicate ProperPrefix(a: seq<string>, b: seq<string>)
  {
    |a| < |b| && b[..|a|] == a
  }

  /** The member reaches the disk; manifests, and directories under their names, do not. */
  predicate Written(m: Member)
    requires SafePath(m.name).Some?
  {
    !ManifestName(PathText(m.name))
  }

  /** No file stands where another member needs a directory. */
  predicate NoFileAbove(members: seq<Member>)
    requires AllSafe(members)
  {
    forall i, j :: 0 <= i < |members| && 0 <= j < |members| && Payload(members[i]) && Written(members[j]) ==>
      !ProperPrefix(Parts(members[i]), Parts(members[j]))
  }

  predicate PayloadOk(members: seq<Member>, expected: Option<map<string, Expected>>, hash: Bytes -> string)
    requires AllSafe(members)
  {
    forall i :: 0 <= i < |members| && Payload(members[i]) ==> DataOk(members[i], expected, hash)
  }

  /** What is on disk below the destination after the first `n` members: every payload file with
      its own bytes, no other file, and only plain paths. */
  ghost predicate Holds(tree: Tree, members: seq<Member>, n: nat)
    requires AllSafe(members) && n <= |members|
  {
    && (forall i :: 0 <= i < n && Payload(members[i]) ==>
          Parts(members[i]) in tree && tree[Parts(members[i])] == File(members[i].data))
    && (forall p :: p in tree && tree[p].File? ==>
          exists i :: 0 <= i < n && Payload(members[i]) && Parts(members[i]) == p)
    && (forall p :: p in tree ==> PlainParts(p))
  }

  // ---- Writing -------------------------------------------------------------------------------

  /** A directory below the destination that some written member needs. */
  predicate Needs(m: Member, p: seq<string>)
    requires SafePath(m.name).Some?
  {
    Written(m) && (ProperPrefix(p, Parts(m)) || (m.kind.Directory? && p == Parts(m)))
  }

  /** Every directory on disk is needed by one of the first `n` members, and theirs are all there. */
  ghost predicate Directories(tree: Tree, members: seq<Member>, n: nat)
    requires AllSafe(members) && n <= |members|
  {
    && (forall p :: p in tree && tree[p].Dir? ==> exists i :: 0 <= i < n && Needs(members[i], p))
    && (forall i, p :: 0 <= i < n && p != [] && Needs(members[i], p) ==> p in tree && tree[p].Dir?)
  }

  ghost predicate Progress(tree: Tree, members: seq<Member>, n: nat)
    requires AllSafe(members) && n <= |members|
  {
    Holds(tree, members, n) && Directories(tree, members, n)
  }

  /** `mkdir(parents=True, exist_ok=True)`: fails when a file stands in the way. */
  method MakeDirectories(tree: Tree, parts: seq<string>) returns (r: Option<Tree>)
    ensures r.Some? <==> forall n :: 0 < n <= |parts| && parts[..n] in tree ==> tree[parts[..n]].Dir?
    ensures r.Some? ==>
              && (forall p :: p in tree ==> p in r.value && r.value[p] == tree[p])
              && (forall p :: p in r.value && p !in tree ==>
                    r.value[p].Dir? && 0 < |p| <= |parts| && p == parts[..|p|])
              && (forall n :: 0 < n <= |parts| ==> parts[..n] in r.value && r.value[parts[..n]].Dir?)
  {
    var out := tree;
    var n := 1;
    while n <= |parts|
      invariant 1 <= n <= |parts| + 1
      invariant forall p :: p in tree ==> p in out && out[p] == tree[p]
      invariant forall p :: p in out && p !in tree ==> out[p].Dir? && 0 < |p| < n && p == parts[..|p|]
      invariant forall k :: 0 < k < n ==> parts[..k] in out && out[parts[..k]].Dir?
      invariant forall k :: 0 < k < n && parts[..k] in tree ==> tree[parts[..k]].Dir?
    {
      var p := parts[..n];
      if p in out && out[p].File? { return None; }
      out := out[p := Dir];
      n := n + 1;
    }
    return Some(out);
  }

  ghost predicate DistinctPaths(members: seq<Member>)
    requires AllSafe(members)
  {
    forall i, j :: 0 <= i < j < |members| ==> Parts(members[i]) != Parts(members[j])
  }

  /** The tree with every directory on the way to `parts` and, for `full`, `parts` itself. */
  ghost predicate Opened(tree: Tree, tree': Tree, parts: seq<string>)
  {
    && (forall p :: p in tree ==> p in tree' && tree'[p] == tree[p])
    && (forall p :: p in tree' && p !in tree ==> tree'[p].Dir? && 0 < |p| <= |parts| && p == parts[..|p|])
    && (forall n :: 0 < n <= |parts| ==> parts[..n] in tree' && tree'[parts[..n]].Dir?)
  }

  lemma SkipKeepsProgress(tree: Tree, members: seq<Member>, i: nat)
    requires AllSafe(members) && i < |members| && Progress(tree, members, i) && !Written(members[i])
    ensures Progress(tree, members, i + 1)
  {
    hide SafePath, ManifestName, PlainParts;
  }

  lemma OpenedIsPlain(tree: Tree, tree': Tree, parts: seq<string>)
    requires PlainParts(parts) && (forall p :: p in tree ==> PlainParts(p)) && Opened(tree, tree', parts)
    ensures forall p :: p in tree' ==> PlainParts(p)
  {}

  /** Opening the directories that member `i` needs. */
  lemma OpenedDirectories(tree: Tree, tree': Tree, members: seq<Member>, i: nat, parts: seq<string>)
    requires AllSafe(members) && i < |members| && Directories(tree, members, i) && Written(members[i])
    requires Opened(tree, tree', parts) && NeedsBeginnings(members[i], parts)
    ensures Directories(tree', members, i + 1)
  {
    hide SafePath, ManifestName, PlainParts, Needs;
  }

  /** The directories a member needs are exactly the non-empty beginnings of `parts`. */
  ghost predicate NeedsBeginnings(m: Member, parts: seq<string>)
    requires SafePath(m.name).Some?
  {
    forall p :: p != [] ==> (Needs(m, p) <==> |p| <= |parts| && p == parts[..|p|])
  }

  lemma DirectoryNeeds(m: Member)
    requires SafePath(m.name).Some? && Written(m) && m.kind.Directory?
    ensures NeedsBeginnings(m, Parts(m))
  {}

  lemma FileNeeds(m: Member)
    requires SafePath(m.name).Some? && Payload(m) && Parts(m) != []
    ensures NeedsBeginnings(m, Parts(m)[..|Parts(m)| - 1])
  {}

  /** New directories leave the files what they are. */
  lemma OpenedHolds(tree: Tree, tree': Tree, members: seq<Member>, n: nat, parts: seq<string>)
    requires AllSafe(members) && n <= |members| && Holds(tree, members, n) && Opened(tree, tree', parts)
    requires forall p :: p in tree' ==> PlainParts(p)
    ensures Holds(tree', members, n)
  {}

  lemma HoldsSkips(tree: Tree, members: seq<Member>, n: nat)
    requires AllSafe(members) && n < |members| && Holds(tree, members, n) && !Payload(members[n])
    ensures Holds(tree, members, n + 1)
  {}

  lemma DirectoryKeepsProgress(tree: Tree, tree': Tree, members: seq<Member>, i: nat)
    requires AllSafe(members) && i < |members| && Progress(tree, members, i)
    requires members[i].kind.Directory? && Written(members[i]) && Opened(tree, tree', Parts(members[i]))
    ensures Progress(tree', members, i + 1)
  {
    var parts := Parts(members[i]);
    SafeStaysBelow(members[i].name);
    DirectoryNeeds(members[i]);
    assert !Payload(members[i]) && forall p :: p in tree ==> PlainParts(p);
    hide SafePath, ManifestName, PlainParts, NeedsBeginnings, Opened, Directories, Parts, Holds, Payload, Written;
    OpenedIsPlain(tree, tree', parts);
    OpenedHolds(tree, tree', members, i, parts);
    OpenedDirectories(tree, tree', members, i, parts);
    HoldsSkips(tree', members, i);
  }

  /** A new file where nothing was. */
  lemma AddedFile(tree: Tree, members: seq<Member>, i: nat)
    requires AllSafe(members) && i < |members| && Holds(tree, members, i) && Directories(tree, members, i + 1)
    requires Payload(members[i]) && Parts(members[i]) !in tree && PlainParts(Parts(members[i]))
    ensures Progress(tree[Parts(members[i]) := File(members[i].data)], members, i + 1)
  {
    hide SafePath, ManifestName, PlainParts, Parts, Needs;
  }

  lemma FileKeepsProgress(tree: Tree, tree': Tree, members: seq<Member>, i: nat)
    requires AllSafe(members) && i < |members| && Progress(tree, members, i)
    requires Payload(members[i]) && Parts(members[i]) !in tree' && Parts(members[i]) != []
    requires Opened(tree, tree', Parts(members[i])[..|Parts(members[i])| - 1])
    ensures Progress(tree'[Parts(members[i]) := File(members[i].data)], members, i + 1)
  {
    var parts := Parts(members[i]);
    var above := parts[..|parts| - 1];
    SafeStaysBelow(members[i].name);
    FileNeeds(members[i]);
    assert forall p :: p in tree ==> PlainParts(p);
    hide SafePath, ManifestName, PlainParts, NeedsBeginnings, Opened, Directories, Holds, Parts;
    forall p | p in tree' ensures PlainParts(p) { OpenedAbove(tree, tree', parts, p); }
    OpenedHolds(tree, tree', members, i, above);
    OpenedDirectories(tree, tree', members, i, above);
    AddedFile(tree', members, i);
  }

  lemma OpenedAbove(tree: Tree, tree': Tree, parts: seq<string>, p: seq<string>)
    requires PlainParts(parts) && (forall q :: q in tree ==> PlainParts(q)) && p in tree'
    requires Opened(tree, tree', parts[..|parts| - 1])
    ensures PlainParts(p)
  {}

  /** A file where a directory is needed means two members that cannot both be written. */
  lemma FileInTheWay(tree: Tree, members: seq<Member>, i: nat, n: nat)
    requires AllSafe(members) && i < |members| && Progress(tree, members, i) && DistinctPaths(members)
    requires Written(members[i]) && 0 < n <= |Parts(members[i])|
    requires Parts(members[i])[..n] in tree && tree[Parts(members[i])[..n]].File?
    ensures !NoFileAbove(members)
  {}

  /** So does a directory where a file has to go. */
  lemma DirectoryInTheWay(tree: Tree, members: seq<Member>, i: nat)
    requires AllSafe(members) && i < |members| && Progress(tree, members, i) && DistinctPaths(members)
    requires Payload(members[i]) && Parts(members[i]) in tree && tree[Parts(members[i])].Dir?
    ensures !NoFileAbove(members)
  {
    hide SafePath, ManifestName, PlainParts, Holds;
    var k :| 0 <= k < i && Needs(members[k], Parts(members[i]));
    assert Parts(members[k]) != Parts(members[i]);
    assert ProperPrefix(Parts(members[i]), Parts(members[k]));
  }

  /** Two files never claim one place. */
  lemma NoFileThere(tree: Tree, members: seq<Member>, i: nat)
    requires AllSafe(members) && i < |members| && Progress(tree, members, i) && DistinctPaths(members)
    requires Parts(members[i]) in tree
    ensures tree[Parts(members[i])].Dir?
  {
    hide SafePath, ManifestName, PlainParts, Directories;
  }

  /** One member of the second pass: skipped, made as a directory, or written and checked. */
  method WriteMember(tree: Tree, members: seq<Member>, i: nat, l: Limits, expected: Option<map<string, Expected>>,
                     hash: Bytes -> string) returns (r: Option<Tree>)
    requires AllSafe(members) && i < |members| && DistinctPaths(members) && Progress(tree, members, i)
    requires MemberOk(members[i], l)
    ensures r.Some? ==> Progress(r.value, members, i + 1)
                        && (Payload(members[i]) ==> DataOk(members[i], expected, hash))
    ensures r.None? ==> !NoFileAbove(members)
                        || (Payload(members[i]) && !DataOk(members[i], expected, hash))
  {
    hide SafePath, PlainParts, Progress, NoFileAbove, DistinctPaths, PathText, ManifestName;
    var m := members[i];
    var parts := Parts(m);
    SafeStaysBelow(m.name);
    if ManifestName(PathText(m.name)) {
      SkipKeepsProgress(tree, members, i);
      return Some(tree);
    }
    assert parts != [] by { PlainNotEmpty(parts); }
    var above := if m.kind.Directory? then parts else parts[..|parts| - 1];
    var made := MakeDirectories(tree, above);
    if made.None? {
      ghost var n :| 0 < n <= |above| && above[..n] in tree && tree[above[..n]].File?;
      assert above[..n] == parts[..n];
      FileInTheWay(tree, members, i, n);
      return None;
    }
    if m.kind.Directory? {
      DirectoryKeepsProgress(tree, made.value, members, i);
      return made;
    }
    if parts in made.value {
      NoFileThere(tree, members, i);
      DirectoryInTheWay(tree, members, i);
      return None;
    }
    var written := |m.data|;
    if written != m.size || written > l.maxFileSize { return None; }
    if expected.Some? && PathText(m.name) in expected.value {
      var e := expected.value[PathText(m.name)];
      if e.size.Some? && written != e.size.value { return None; }
      if hash(m.data) != e.digest { return None; }
    }
    FileKeepsProgress(tree, made.value, members, i);
    return Some(made.value[parts := File(m.data)]);
  }

  lemma PlainNotEmpty(parts: seq<string>)
    requires PlainParts(parts)
    ensures parts != []
  {}

  /** Whoever wrote everything met no file in a directory's place. */
  lemma AllWritten(tree: Tree, members: seq<Member>)
    requires AllSafe(members) && Progress(tree, members, |members|)
    ensures NoFileAbove(members)
  {}

  // ---- Extraction ----------------------------------------------------------------------------

  /** Headers, sizes and, where asked for, the inventory are as they should be. */
  predicate HeadersOk(a: Archive, l: Limits, expectedSha: Option<string>, c: Codec)
  {
    && (expectedSha.Some? && expectedSha.value != "" ==> a.sha == Lower(expectedSha.value))
    && a.compressed > 0 && |a.members| <= l.maxFiles && MembersOk(a.members, l, c.fold)
    && Total(a.members) <= l.maxTotal && Total(a.members) <= l.maxRatio * a.compressed
  }

  lemma MembersSafe(members: seq<Member>, l: Limits, fold: string -> string)
    requires MembersOk(members, l, fold)
    ensures AllSafe(members) && DistinctPaths(members)
    ensures forall i :: 0 <= i < |members| ==> MemberOk(members[i], l)
  {}

  /** The inventory that the extraction checks against, if it checks at all. */
  function Checked(a: Archive, verify: bool, c: Codec): Option<map<string, Expected>>
  {
    if verify then Embedded(a.members, c.decode) else None
  }

  /** Exactly which archives are extracted. */
  predicate Accepts(a: Archive, l: Limits, expectedSha: Option<string>, verify: bool, c: Codec)
  {
    && HeadersOk(a, l, expectedSha, c) && AllSafe(a.members)
    && (verify ==> Embedded(a.members, c.decode).Some?
                   && ListsExactly(Embedded(a.members, c.decode).value, a.members))
    && NoFileAbove(a.members) && PayloadOk(a.members, Checked(a, verify, c), c.hash)
  }

  /** Returns exactly for acceptable archives, and then leaves below the destination exactly the
      payload files with their bytes; a refusal leaves nothing, for the destination is removed. */
  method Extract(a: Archive, l: Limits, expectedSha: Option<string>, verify: bool, c: Codec)
    returns (r: Option<Tree>)
    ensures r.Some? <==> Accepts(a, l, expectedSha, verify, c)
    ensures r.Some? ==> Holds(r.value, a.members, |a.members|)
  {
    hide MembersOk, Embedded, NoFileAbove, Total, SafePath, ManifestName;
    if expectedSha.Some? && expectedSha.value != "" && a.sha != Lower(expectedSha.value) { return None; }
    if a.compressed <= 0 || |a.members| > l.maxFiles { return None; }
    var ok, total := Scan(a.members, l, c.fold);
    if !ok || total > l.maxTotal || total > l.maxRatio * a.compressed { return None; }
    MembersSafe(a.members, l, c.fold);
    var expected: Option<map<string, Expected>> := None;
    if verify {
      expected := FindInventory(a.members, c.decode);
      if expected.None? || !ListsExactly(expected.value, a.members) { return None; }
    }
    r := WriteAll(a.members, l, expected, c);
  }

  method FindInventory(members: seq<Member>, decode: Bytes -> Inventory) returns (r: Option<map<string, Expected>>)
    ensures r == Embedded(members, decode)
  {
    var names := [MANIFEST, LEGACY_MANIFEST];
    var n := 0;
    while n < 2
      invariant n <= 2 && forall k :: 0 <= k < n ==> FindMember(members, names[k]) == |members|
    {
      var i := FindMember(members, names[n]);
      if i < |members| {
        assert n == 1 ==> FindMember(members, names[0]) == |members|;
        r := ParseFileManifest(decode(members[i].data));
        return;
      }
      n := n + 1;
    }
    assert FindMember(members, names[0]) == |members| == FindMember(members, names[1]);
    return None;
  }

  lemma ProgressHolds(tree: Tree, members: seq<Member>)
    requires AllSafe(members) && Progress(tree, members, |members|)
    ensures Holds(tree, members, |members|)
  {}

  lemma NothingWritten(members: seq<Member>)
    requires AllSafe(members)
    ensures Progress(map[], members, 0)
  {}

  method WriteAll(members: seq<Member>, l: Limits, expected: Option<map<string, Expected>>, c: Codec)
    returns (r: Option<Tree>)
    requires AllSafe(members) && DistinctPaths(members)
    requires forall i :: 0 <= i < |members| ==> MemberOk(members[i], l)
    ensures r.Some? <==> NoFileAbove(members) && PayloadOk(members, expected, c.hash)
    ensures r.Some? ==> Holds(r.value, members, |members|)
  {
    hide SafePath, MemberOk, Progress, DistinctPaths, ManifestName, NoFileAbove, DataOk, PathText, Parts;
    var tree: Tree := map[];
    NothingWritten(members);
    var i := 0;
    while i < |members|
      invariant i <= |members| && Progress(tree, members, i)
      invariant forall k :: 0 <= k < i && Payload(members[k]) ==> DataOk(members[k], expected, c.hash)
    {
      var next := WriteMember(tree, members, i, l, expected, c.hash);
      if next.None? { return None; }
      tree := next.value;
      i := i + 1;
    }
    AllWritten(tree, members);
    ProgressHolds(tree, members);
    return Some(tree);
  }

  // ---- What a verified extraction guarantees ---------------------------------------------------

  lemma PayloadText(m: Member)
    requires SafePath(m.name).Some?
    ensures Join(Parts(m)) == PathText(m.name)
  {}

  /** A verified extraction produced exactly the inventoried files, each with the size and digest
      the inventory gives, and nothing that is not below the destination. */
  lemma VerifiedIsInventoried(a: Archive, l: Limits, expectedSha: Option<string>, c: Codec, tree: Tree)
    requires Accepts(a, l, expectedSha, true, c) && Holds(tree, a.members, |a.members|)
    ensures Embedded(a.members, c.decode).Some?
    ensures var expected := Embedded(a.members, c.decode).value;
            && (forall p :: p in tree && tree[p].File? ==>
                  && Join(p) in expected && c.hash(tree[p].data) == expected[Join(p)].digest
                  && (expected[Join(p)].size.Some? ==> |tree[p].data| == expected[Join(p)].size.value))
            && (forall text :: text in expected ==> exists p :: p in tree && tree[p].File? && Join(p) == text)
    ensures forall p :: p in tree ==> PlainParts(p)
  {
    var members := a.members;
    var expected := Embedded(members, c.decode).value;
    hide SafePath, PlainParts, HeadersOk, NoFileAbove, Embedded, Payload, PathText, Parts;
    forall p | p in tree && tree[p].File?
      ensures && Join(p) in expected && c.hash(tree[p].data) == expected[Join(p)].digest
              && (expected[Join(p)].size.Some? ==> |tree[p].data| == expected[Join(p)].size.value)
    {
      var i :| 0 <= i < |members| && Payload(members[i]) && Parts(members[i]) == p;
      PayloadText(members[i]);
      assert DataOk(members[i], Some(expected), c.hash);
    }
    forall text | text in expected ensures exists p :: p in tree && tree[p].File? && Join(p) == text {
      var i :| 0 <= i < |members| && Payload(members[i]) && PathText(members[i].name) == text;
      PayloadText(members[i]);
      assert Parts(members[i]) in tree;
    }
  }

  /** What is refused whatever else an archive holds: links and special members, unsafe names, names
      that collide, members that are too many, too large or not as large as they say, an empty or
      altered archive, and, where the inventory is checked, bytes or files it does not list. */
  lemma AcceptedIsPlain(a: Archive, l: Limits, expectedSha: Option<string>, verify: bool, c: Codec)
    requires Accepts(a, l, expectedSha, verify, c)
    ensures 0 < a.compressed && |a.members| <= l.maxFiles
    ensures expectedSha.Some? && expectedSha.value != "" ==> a.sha == Lower(expectedSha.value)
    ensures forall i :: 0 <= i < |a.members| ==>
              var m := a.members[i];
              && m.kind in {Regular, Directory} && SafePath(m.name).Some?
              && (m.kind == Regular ==> m.size <= l.maxFileSize)
              && (m.kind == Regular && PathText(m.name) !in {MANIFEST, LEGACY_MANIFEST} ==> |m.data| == m.size)
    ensures forall i, j :: 0 <= i < j < |a.members| ==>
              c.fold(PathText(a.members[i].name)) != c.fold(PathText(a.members[j].name))
    ensures verify ==> exists i :: 0 <= i < |a.members| && a.members[i].kind == Regular
                                   && PathText(a.members[i].name) in {MANIFEST, LEGACY_MANIFEST}
  {
    hide SafePath, PathText, NoFileAbove, ListsExactly;
    var members := a.members;
    MembersSafe(members, l, c.fold);
    forall i | 0 <= i < |members| && members[i].kind == Regular && PathText(members[i].name) !in {MANIFEST, LEGACY_MANIFEST}
      ensures |members[i].data| == members[i].size
    {
      assert Payload(members[i]);
    }
    if verify {
      var i, j := FindMember(members, MANIFEST), FindMember(members, LEGACY_MANIFEST);
      assert i < |members| || j < |members|;
      var k := if i < |members| then i else j;
      assert FileAt(members[k], if i < |members| then MANIFEST else LEGACY_MANIFEST);
    }
  }

  /** The bytes of the first `n` payload files. */
  function WrittenBytes(members: seq<Member>, n: nat): nat
    requires AllSafe(members) && n <= |members|
  {
    if n == 0 then 0
    else WrittenBytes(members, n - 1) + if Payload(members[n - 1]) then |members[n - 1].data| else 0
  }

  lemma {:induction false} BytesBelowTotal(members: seq<Member>, n: nat)
    requires AllSafe(members) && n <= |members|
    requires forall i :: 0 <= i < n && Payload(members[i]) ==> |members[i].data| == members[i].size
    ensures WrittenBytes(members, n) <= Total(members[..n])
  {
    hide SafePath, ManifestName;
    if n > 0 {
      BytesBelowTotal(members, n - 1);
      TotalNext(members, n - 1);
    }
  }

  /** No accepted archive writes more than the limits allow, whatever its headers claim. */
  lemma BytesWithinLimits(a: Archive, l: Limits, expectedSha: Option<string>, verify: bool, c: Codec)
    requires Accepts(a, l, expectedSha, verify, c)
    ensures WrittenBytes(a.members, |a.members|) <= l.maxTotal
    ensures WrittenBytes(a.members, |a.members|) <= l.maxRatio * a.compressed
  {
    hide SafePath, NoFileAbove, Embedded, Total, MembersOk, Payload;
    BytesBelowTotal(a.members, |a.members|);
    assert a.members[..|a.members|] == a.members;
  }
}
