/** Building a Skill archive from a directory tree: which files go in, in which order, with which
    inventory; and that extracting it gives the files back. */
module Packaging {
  import opened Common
  import opened ArchivePaths
  import opened Archives

  datatype EntryKind = PlainFile | PlainDirectory | Symlink
  datatype Entry = Entry(parts: seq<string>, kind: EntryKind, data: Bytes)

  const EXCLUDED: set<string> := {".git", ".hg", ".svn", "__pycache__", "node_modules"}

  predicate Skipped(e: Entry)
  {
    exists i :: 0 <= i < |e.parts| && e.parts[i] in EXCLUDED
  }

  /** The file goes into the archive; `output` is where the archive itself will be. */
  predicate Selected(e: Entry, output: seq<string>)
  {
    e.kind.PlainFile? && !Skipped(e) && e.parts != output && e.parts != [MANIFEST]
  }

  predicate Forbidden(e: Entry)
  {
    e.kind.Symlink? && !Skipped(e)
  }

  // ---- Order ---------------------------------------------------------------------------------

  /** Code point order on strings. */
  predicate Below(a: string, b: string)
  {
    b != "" && (a == "" || a[0] < b[0] || (a[0] == b[0] && Below(a[1..], b[1..])))
  }

  lemma {:induction false} BelowTransitive(a: string, b: string, c: string)
    requires Below(a, b) && Below(b, c)
    ensures Below(a, c)
  {
    if a != "" && a[0] == b[0] == c[0] { BelowTransitive(a[1..], b[1..], c[1..]); }
  }

  lemma {:induction false} BelowTotal(a: string, b: string)
    ensures Below(a, b) || Below(b, a) || a == b
    ensures !(Below(a, b) && Below(b, a)) && !Below(a, a)
  {
    if a != "" && b != "" && a[0] == b[0] {
      BelowTotal(a[1..], b[1..]);
      assert a == [a[0]] + a[1..] && b == [b[0]] + b[1..];
    }
    if a != "" { BelowIrreflexive(a[1..]); }
  }

  lemma {:induction false} BelowIrreflexive(a: string)
    ensures !Below(a, a)
  {
    if a != "" { BelowIrreflexive(a[1..]); }
  }

  function Text(e: Entry): string
  {
    Join(e.parts)
  }

  /** Strictly ascending by path. */
  ghost predicate Ascending(files: seq<Entry>)
  {
    forall i, j :: 0 <= i < j < |files| ==> Below(Text(files[i]), Text(files[j]))
  }

  /** An ascending list is determined by its elements. */
  lemma {:induction false} AscendingUnique(a: seq<Entry>, b: seq<Entry>)
    requires Ascending(a) && Ascending(b) && forall e :: e in a <==> e in b
    ensures a == b
    decreases |a|
  {
    if a == [] {
      assert b == [] by { assert forall k :: 0 <= k < |b| ==> b[k] in b; }
    } else {
      assert a[0] in b && (b != [] ==> b[0] in a);
      var i :| 0 <= i < |b| && b[i] == a[0];
      var j :| 0 <= j < |a| && a[j] == b[0];
      BelowTotal(Text(a[0]), Text(b[0]));
      assert i == 0;
      forall e ensures e in a[1..] <==> e in b[1..] { TailElements(a, b, e); }
      AscendingUnique(a[1..], b[1..]);
    }
  }

  lemma TailElements(a: seq<Entry>, b: seq<Entry>, e: Entry)
    requires a != [] && b != [] && a[0] == b[0] && Ascending(a) && Ascending(b) && (e in a <==> e in b)
    ensures e in a[1..] <==> e in b[1..]
  {
    BelowTotal(Text(a[0]), Text(a[0]));
    assert a[0] !in a[1..] && b[0] !in b[1..];
    assert a == [a[0]] + a[1..] && b == [b[0]] + b[1..];
  }

  /** `result.sort`, one element at a time. */
  method InsertSorted(files: seq<Entry>, e: Entry) returns (r: seq<Entry>)
    requires Ascending(files) && forall i :: 0 <= i < |files| ==> Text(files[i]) != Text(e)
    ensures Ascending(r) && forall x :: x in r <==> x in files || x == e
  {
    hide Below, Text;
    var i := 0;
    while i < |files| && Below(Text(files[i]), Text(e))
      invariant i <= |files| && forall k :: 0 <= k < i ==> Below(Text(files[k]), Text(e))
    {
      i := i + 1;
    }
    r := files[..i] + [e] + files[i..];
    AscendingInsert(files, e, i);
    assert files == files[..i] + files[i..];
  }

  lemma AscendingInsert(files: seq<Entry>, e: Entry, i: nat)
    requires Ascending(files) && i <= |files| && forall k :: 0 <= k < i ==> Below(Text(files[k]), Text(e))
    requires i < |files| ==> !Below(Text(files[i]), Text(e)) && Text(files[i]) != Text(e)
    ensures Ascending(files[..i] + [e] + files[i..])
  {
    hide Below, Text;
    if i < |files| { BelowTotal(Text(files[i]), Text(e)); }
    forall k | i <= k < |files| ensures Below(Text(e), Text(files[k])) {
      if k > i { BelowTransitive(Text(e), Text(files[i]), Text(files[k])); }
    }
    var r := files[..i] + [e] + files[i..];
    assert forall k :: 0 <= k < |r| ==> r[k] == if k < i then files[k] else if k == i then e else files[k - 1];
  }

  ghost predicate DistinctTexts(entries: seq<Entry>)
  {
    forall i, j :: 0 <= i < j < |entries| ==> Text(entries[i]) != Text(entries[j])
  }

  /** The list `_files` returns for these entries. */
  ghost predicate SelectionOf(files: seq<Entry>, entries: seq<Entry>, output: seq<string>)
  {
    Ascending(files) && forall e :: e in files <==> e in entries && Selected(e, output)
  }

  /** `_files`: every file that belongs in the archive, in path order, whatever the traversal order;
      one symbolic link outside the skipped directories refuses the whole tree. */
  method SelectFiles(entries: seq<Entry>, output: seq<string>) returns (r: Option<seq<Entry>>)
    requires DistinctTexts(entries)
    ensures r.None? <==> exists e :: e in entries && Forbidden(e)
    ensures r.Some? ==> SelectionOf(r.value, entries, output)
  {
    hide Selected, Forbidden;
    var files: seq<Entry> := [];
    var i := 0;
    while i < |entries|
      invariant i <= |entries| && Ascending(files)
      invariant forall k :: 0 <= k < i ==> !Forbidden(entries[k])
      invariant forall e :: e in files <==> e in entries[..i] && Selected(e, output)
    {
      if Forbidden(entries[i]) { return None; }
      assert entries[..i + 1] == entries[..i] + [entries[i]];
      if Selected(entries[i], output) {
        forall k | 0 <= k < |files| ensures Text(files[k]) != Text(entries[i]) {
          assert files[k] in entries[..i];
        }
        files := InsertSorted(files, entries[i]);
      }
      i := i + 1;
    }
    assert entries[..i] == entries;
    return Some(files);
  }

  /** Two traversals of one tree select the same list: the archive is deterministic. */
  lemma SelectionDeterministic(a: seq<Entry>, b: seq<Entry>, x: seq<Entry>, y: seq<Entry>, output: seq<string>)
    requires (forall e :: e in a <==> e in b) && SelectionOf(x, a, output) && SelectionOf(y, b, output)
    ensures x == y
  {
    hide Selected, Ascending;
    AscendingUnique(x, y);
  }

  // ---- The archive ---------------------------------------------------------------------------

  function ItemOf(e: Entry, hash: Bytes -> string): Json
  {
    JObj(map["path" := JStr(Text(e)), "size" := JNum(|e.data|), "sha256" := JStr(hash(e.data))])
  }

  function ItemsOf(files: seq<Entry>, hash: Bytes -> string): (r: seq<Json>)
    ensures |r| == |files| && forall i :: 0 <= i < |r| ==> r[i] == ItemOf(files[i], hash)
  {
    seq(|files|, i requires 0 <= i < |files| => ItemOf(files[i], hash))
  }

  function MemberOf(e: Entry): Member
  {
    Member(Text(e), Regular, |e.data|, e.data)
  }

  /** The files in order, then the inventory. */
  function Built(files: seq<Entry>, inventory: Bytes): (r: seq<Member>)
    ensures |r| == |files| + 1 && r[|files|] == Member(MANIFEST, Regular, |inventory|, inventory)
    ensures forall i :: 0 <= i < |files| ==> r[i] == MemberOf(files[i])
  {
    seq(|files|, i requires 0 <= i < |files| => MemberOf(files[i])) + [Member(MANIFEST, Regular, |inventory|, inventory)]
  }

  /** JSON text that is read back as it was written, and digests in lower-case hexadecimal. */
  ghost predicate Faithful(files: seq<Entry>, inventory: Bytes, c: Codec)
  {
    && c.decode(inventory) == Listed(ItemsOf(files, c.hash))
    && forall i :: 0 <= i < |files| ==> Digest(c.hash(files[i].data)) && Lower(c.hash(files[i].data)) == c.hash(files[i].data)
  }

  /** A selection from a real directory tree. */
  ghost predicate RealSelection(files: seq<Entry>)
  {
    && (forall i :: 0 <= i < |files| ==> PlainParts(files[i].parts) && files[i].parts != [MANIFEST])
    && (forall i, j :: 0 <= i < j < |files| ==> files[i].parts != files[j].parts)
    && (forall i, j :: 0 <= i < |files| && 0 <= j < |files| ==> !ProperPrefix(files[i].parts, files[j].parts))
  }

  /** The packager returns only what its own validator extracts. */
  predicate Packaged(files: seq<Entry>, inventory: Bytes, compressed: nat, sha: string, c: Codec)
  {
    Accepts(Archive(Built(files, inventory), compressed, sha), DEFAULT_LIMITS, Some(sha), true, c)
  }

  lemma ManifestPaths()
    ensures SafePath(MANIFEST) == Some([MANIFEST]) && SafePath(LEGACY_MANIFEST) == Some([LEGACY_MANIFEST])
    ensures PathText(MANIFEST) == MANIFEST
  {
    assert Join([MANIFEST]) == MANIFEST && Join([LEGACY_MANIFEST]) == LEGACY_MANIFEST;
    assert PlainPart(MANIFEST) && PlainPart(LEGACY_MANIFEST);
    PlainPathIsSafe([MANIFEST]);
    PlainPathIsSafe([LEGACY_MANIFEST]);
    NoOddChars();
  }

  lemma NoOddChars()
    ensures '\0' !in MANIFEST && '\\' !in MANIFEST && '\0' !in LEGACY_MANIFEST && '\\' !in LEGACY_MANIFEST
  {}

  /** A selected file keeps its path, and only the old inventory's name can hide it. */
  lemma FilePath(e: Entry)
    requires PlainParts(e.parts) && e.parts != [MANIFEST] && SafePath(Text(e)).Some?
    ensures SafePath(Text(e)) == Some(e.parts) && PathText(Text(e)) == Text(e) && Text(e) != MANIFEST
    ensures Text(e) == LEGACY_MANIFEST <==> e.parts == [LEGACY_MANIFEST]
  {
    PlainPathIsSafe(e.parts);
    ManifestPaths();
  }

  /** Every file has its own safe path. */
  ghost predicate SafeFiles(files: seq<Entry>)
  {
    forall i :: 0 <= i < |files| ==> SafePath(Text(files[i])).Some?
  }

  lemma SafeIff(files: seq<Entry>, inventory: Bytes)
    ensures SafeFiles(files) <==> AllSafe(Built(files, inventory))
  {
    var members := Built(files, inventory);
    ManifestPaths();
    hide SafePath, Join;
    assert members[|files|].name == MANIFEST;
    assert forall i :: 0 <= i < |files| ==> members[i].name == Text(files[i]);
  }

  /** How the member of one selected file appears to the validator. */
  lemma MemberFacts(files: seq<Entry>, inventory: Bytes, i: nat)
    requires RealSelection(files) && SafeFiles(files) && i < |files|
    ensures var m := Built(files, inventory)[i];
            && SafePath(m.name) == Some(files[i].parts) && PathText(m.name) == Text(files[i]) == m.name
            && m.kind.Regular? && m.data == files[i].data && |m.data| == m.size
            && !FileAt(m, MANIFEST) && (Payload(m) <==> files[i].parts != [LEGACY_MANIFEST])
  {
    assert PlainParts(files[i].parts) && files[i].parts != [MANIFEST];
    FilePath(files[i]);
    hide SafePath, Join, PathText, PlainParts;
  }

  /** And the member of the inventory. */
  lemma ManifestFacts(files: seq<Entry>, inventory: Bytes)
    requires RealSelection(files) && SafeFiles(files)
    ensures var m := Built(files, inventory)[|files|];
            && SafePath(m.name) == Some([MANIFEST]) && !Payload(m) && !Written(m)
            && FindMember(Built(files, inventory), MANIFEST) == |files|
  {
    var members := Built(files, inventory);
    ManifestPaths();
    hide SafePath, Join, PathText, PlainParts;
    forall i | 0 <= i < |files| ensures !FileAt(members[i], MANIFEST) { MemberFacts(files, inventory, i); }
    assert FileAt(members[|files|], MANIFEST);
    assert FindMember(members, MANIFEST) <= |files|;
  }

  lemma ItemFields(e: Entry, hash: Bytes -> string)
    requires SafePath(Text(e)).Some? && Digest(hash(e.data)) && PathText(Text(e)) == Text(e)
    requires Lower(hash(e.data)) == hash(e.data)
    ensures ValidEntry(ItemOf(e, hash)) && EntryPath(ItemOf(e, hash)) == Text(e)
    ensures EntryOf(ItemOf(e, hash)) == Expected(hash(e.data), Some(|e.data|))
  {}

  /** The table lists every file under its path with its digest and size, and nothing else. */
  ghost predicate TableOf(expected: map<string, Expected>, files: seq<Entry>, hash: Bytes -> string)
  {
    && (forall i :: 0 <= i < |files| ==>
          Text(files[i]) in expected
          && expected[Text(files[i])] == Expected(hash(files[i].data), Some(|files[i].data|)))
    && (forall p :: p in expected ==> exists i :: 0 <= i < |files| && Text(files[i]) == p)
  }

  lemma TableIsTable(files: seq<Entry>, hash: Bytes -> string)
    requires forall i :: 0 <= i < |files| ==>
               ValidEntry(ItemOf(files[i], hash)) && EntryPath(ItemOf(files[i], hash)) == Text(files[i])
               && EntryOf(ItemOf(files[i], hash)) == Expected(hash(files[i].data), Some(|files[i].data|))
    requires forall i, j :: 0 <= i < j < |files| ==> Text(files[i]) != Text(files[j])
    ensures ValidItems(ItemsOf(files, hash)) && TableOf(Table(ItemsOf(files, hash)), files, hash)
  {
    hide ValidEntry, EntryPath, EntryOf, ItemOf, Join, Text;
    var items := ItemsOf(files, hash);
    assert ValidItems(items);
    assert forall i :: 0 <= i < |items| ==> EntryPath(items[i]) in Table(items);
  }

  lemma EmbeddedIs(files: seq<Entry>, inventory: Bytes, c: Codec)
    requires FindMember(Built(files, inventory), MANIFEST) == |files|
    requires c.decode(inventory) == Listed(ItemsOf(files, c.hash)) && ValidItems(ItemsOf(files, c.hash))
    ensures Embedded(Built(files, inventory), c.decode) == Some(Table(ItemsOf(files, c.hash)))
  {
    hide ValidItems, Table, FindMember;
  }

  lemma ItemFacts(files: seq<Entry>, inventory: Bytes, c: Codec, i: nat)
    requires RealSelection(files) && SafeFiles(files) && Faithful(files, inventory, c) && i < |files|
    ensures ValidEntry(ItemOf(files[i], c.hash)) && EntryPath(ItemOf(files[i], c.hash)) == Text(files[i])
            && EntryOf(ItemOf(files[i], c.hash)) == Expected(c.hash(files[i].data), Some(|files[i].data|))
  {
    hide ValidEntry, EntryPath, EntryOf, ItemOf, SafePath, PathText, Join, Digest, Lower, RealSelection;
    MemberFacts(files, inventory, i);
    ItemFields(files[i], c.hash);
  }

  /** The archive's own inventory is read back as the table of its files. */
  lemma InventoryReadBack(files: seq<Entry>, inventory: Bytes, c: Codec)
    requires RealSelection(files) && SafeFiles(files) && Faithful(files, inventory, c)
    ensures Embedded(Built(files, inventory), c.decode).Some?
    ensures TableOf(Embedded(Built(files, inventory), c.decode).value, files, c.hash)
  {
    ManifestFacts(files, inventory);
    TextsDistinct(files);
    assert c.decode(inventory) == Listed(ItemsOf(files, c.hash));
    hide SafeFiles, RealSelection, Embedded, TableOf, Table, ValidItems, Faithful, Text;
    hide ValidEntry, EntryPath, EntryOf, ItemOf, SafePath, FindMember, Parsed, Payload, Written;
    forall i | 0 <= i < |files|
      ensures ValidEntry(ItemOf(files[i], c.hash)) && EntryPath(ItemOf(files[i], c.hash)) == Text(files[i])
              && EntryOf(ItemOf(files[i], c.hash)) == Expected(c.hash(files[i].data), Some(|files[i].data|))
    {
      ItemFacts(files, inventory, c, i);
    }
    TableIsTable(files, c.hash);
    EmbeddedIs(files, inventory, c);
  }

  lemma TextsDistinct(files: seq<Entry>)
    requires RealSelection(files) && SafeFiles(files)
    ensures forall i, j :: 0 <= i < j < |files| ==> Text(files[i]) != Text(files[j])
  {
    hide SafePath, PathText, Join, PlainParts;
    forall i, j | 0 <= i < j < |files| ensures Text(files[i]) != Text(files[j]) {
      FilePath(files[i]);
      FilePath(files[j]);
    }
  }

  /** No selected file can have the name of the old inventory: it would be listed but not there. */
  lemma NotHidden(files: seq<Entry>, inventory: Bytes, expected: map<string, Expected>, hash: Bytes -> string, i: nat)
    requires RealSelection(files) && SafeFiles(files) && i < |files| && TableOf(expected, files, hash)
    requires AllSafe(Built(files, inventory)) && ListsExactly(expected, Built(files, inventory))
    ensures Payload(Built(files, inventory)[i])
  {
    var members := Built(files, inventory);
    hide SafePath, PathText, PlainParts, RealSelection, Payload, Join, SafeFiles, Text;
    assert Text(files[i]) in expected;
    var k :| 0 <= k < |members| && Payload(members[k]) && PathText(members[k].name) == Text(files[i]);
    ManifestFacts(files, inventory);
    TextsDistinct(files);
    MemberFacts(files, inventory, k);
    assert k == i;
  }

  lemma HoldsFiles(files: seq<Entry>, members: seq<Member>, tree: Tree)
    requires |members| == |files| + 1 && AllSafe(members) && Holds(tree, members, |members|)
    requires forall i :: 0 <= i < |files| ==>
               Payload(members[i]) && Parts(members[i]) == files[i].parts && members[i].data == files[i].data
    requires !Payload(members[|files|])
    ensures forall e :: e in files ==> e.parts in tree && tree[e.parts] == File(e.data)
    ensures forall p :: p in tree && tree[p].File? ==> exists e :: e in files && e.parts == p
  {}

  lemma PackagedListsExactly(files: seq<Entry>, inventory: Bytes, compressed: nat, sha: string, c: Codec)
    requires Packaged(files, inventory, compressed, sha, c)
    ensures var members := Built(files, inventory);
            AllSafe(members) && Embedded(members, c.decode).Some?
            && ListsExactly(Embedded(members, c.decode).value, members)
  {
    hide SafePath, HeadersOk, NoFileAbove, PayloadOk, ListsExactly, Embedded;
  }

  /** Round trip: the files below the destination are exactly the selected ones, byte for byte. */
  lemma RoundTrip(files: seq<Entry>, inventory: Bytes, compressed: nat, sha: string, c: Codec, tree: Tree)
    requires RealSelection(files) && Faithful(files, inventory, c)
    requires Packaged(files, inventory, compressed, sha, c)
    requires AllSafe(Built(files, inventory)) && Holds(tree, Built(files, inventory), |files| + 1)
    ensures forall e :: e in files ==> e.parts in tree && tree[e.parts] == File(e.data)
    ensures forall p :: p in tree && tree[p].File? ==> exists e :: e in files && e.parts == p
  {
    hide SafePath, PathText, PlainParts, Join, Accepts, RealSelection, Embedded, Faithful, Payload, Text, SafeFiles;
    hide ListsExactly, TableOf, Packaged, Holds, FindMember, Written, AllSafe;
    var members := Built(files, inventory);
    PackagedListsExactly(files, inventory, compressed, sha, c);
    SafeIff(files, inventory);
    InventoryReadBack(files, inventory, c);
    ManifestFacts(files, inventory);
    forall i | 0 <= i < |files|
      ensures SafePath(members[i].name).Some? && Payload(members[i]) && Parts(members[i]) == files[i].parts
              && members[i].data == files[i].data
    {
      MemberFacts(files, inventory, i);
      NotHidden(files, inventory, Embedded(members, c.decode).value, c.hash, i);
    }
    HoldsFiles(files, members, tree);
  }

  // ---- When the packager returns -------------------------------------------------------------

  /** The archive format can carry this file. */
  predicate Carriable(e: Entry)
    requires e.parts != []
  {
    '\0' !in Text(e) && '\\' !in Text(e) && !EndsWithColon(e.parts[0])
    && |e.data| <= DEFAULT_LIMITS.maxFileSize && e.parts != [LEGACY_MANIFEST]
  }

  ghost predicate FoldsApart(files: seq<Entry>, fold: string -> string)
  {
    && (forall i, j :: 0 <= i < j < |files| ==> fold(Text(files[i])) != fold(Text(files[j])))
    && (forall i :: 0 <= i < |files| ==> fold(Text(files[i])) != fold(MANIFEST))
  }

  predicate WithinLimits(files: seq<Entry>, inventory: Bytes, compressed: nat)
  {
    && 0 < compressed && |files| + 1 <= DEFAULT_LIMITS.maxFiles && |inventory| <= DEFAULT_LIMITS.maxFileSize
    && Total(Built(files, inventory)) <= DEFAULT_LIMITS.maxTotal
    && Total(Built(files, inventory)) <= DEFAULT_LIMITS.maxRatio * compressed
  }

  ghost predicate Archivable(files: seq<Entry>, inventory: Bytes, compressed: nat, fold: string -> string)
    requires RealSelection(files)
  {
    && (forall i :: 0 <= i < |files| ==> PlainParts(files[i].parts) && Carriable(files[i]))
    && FoldsApart(files, fold) && WithinLimits(files, inventory, compressed)
  }

  /** One selected file, and the inventory, as the validator sees them. */
  ghost predicate FaceOf(m: Member, e: Entry)
  {
    && SafePath(m.name) == Some(e.parts) && PathText(m.name) == Text(e)
    && m.kind.Regular? && m.data == e.data && m.size == |e.data|
    && (Payload(m) <==> e.parts != [LEGACY_MANIFEST])
  }

  ghost predicate InventoryFace(m: Member, inventory: Bytes)
  {
    && SafePath(m.name) == Some([MANIFEST]) && PathText(m.name) == MANIFEST
    && m.kind.Regular? && m.size == |inventory| && !Payload(m) && !Written(m)
  }

  ghost predicate Faces(members: seq<Member>, files: seq<Entry>, inventory: Bytes)
  {
    && |members| == |files| + 1
    && (forall i :: 0 <= i < |files| ==> FaceOf(members[i], files[i]))
    && InventoryFace(members[|files|], inventory)
  }

  lemma MemberFace(files: seq<Entry>, inventory: Bytes, i: nat)
    requires RealSelection(files) && SafeFiles(files) && i < |files|
    ensures FaceOf(Built(files, inventory)[i], files[i])
  {
    hide SafePath, PathText, PlainParts, Join, RealSelection, SafeFiles, Text, Payload;
    MemberFacts(files, inventory, i);
  }

  lemma BuiltFaces(files: seq<Entry>, inventory: Bytes)
    requires RealSelection(files) && SafeFiles(files)
    ensures Faces(Built(files, inventory), files, inventory)
  {
    hide SafePath, PathText, PlainParts, Join, RealSelection, SafeFiles, Text, Payload, Written, FindMember, FaceOf;
    ManifestFacts(files, inventory);
    ManifestPaths();
    forall i | 0 <= i < |files| ensures FaceOf(Built(files, inventory)[i], files[i]) {
      MemberFace(files, inventory, i);
    }
  }

  lemma FacesSafe(members: seq<Member>, files: seq<Entry>, inventory: Bytes)
    requires Faces(members, files, inventory)
    ensures AllSafe(members)
    ensures (forall i :: 0 <= i < |members| ==> MemberOk(members[i], DEFAULT_LIMITS)) <==>
              (forall i :: 0 <= i < |files| ==> |files[i].data| <= DEFAULT_LIMITS.maxFileSize)
              && |inventory| <= DEFAULT_LIMITS.maxFileSize
  {
    hide SafePath, PathText, Text, Payload, Written;
    assert forall i :: 0 <= i < |files| ==> members[i].size == |files[i].data|;
    assert members[|files|].size == |inventory|;
  }

  lemma FacesFold(members: seq<Member>, files: seq<Entry>, inventory: Bytes, fold: string -> string)
    requires Faces(members, files, inventory) && AllSafe(members)
    ensures (forall i, j :: 0 <= i < j < |members| ==>
               fold(PathText(members[i].name)) != fold(PathText(members[j].name))) <==> FoldsApart(files, fold)
  {
    hide SafePath, PathText, Text, Payload, Written;
    assert forall i :: 0 <= i < |files| ==> PathText(members[i].name) == Text(files[i]);
  }

  lemma MembersExactly(members: seq<Member>, files: seq<Entry>, inventory: Bytes, fold: string -> string)
    requires Faces(members, files, inventory)
    ensures MembersOk(members, DEFAULT_LIMITS, fold) <==>
              (forall i :: 0 <= i < |files| ==> |files[i].data| <= DEFAULT_LIMITS.maxFileSize)
              && |inventory| <= DEFAULT_LIMITS.maxFileSize && FoldsApart(files, fold)
  {
    FacesSafe(members, files, inventory);
    FacesFold(members, files, inventory, fold);
    hide SafePath, PathText, Text, Faces, FoldsApart, MemberOk;
  }

  lemma PayloadExactly(members: seq<Member>, files: seq<Entry>, inventory: Bytes, expected: map<string, Expected>,
                       hash: Bytes -> string)
    requires Faces(members, files, inventory) && AllSafe(members) && TableOf(expected, files, hash)
    requires forall i :: 0 <= i < |files| ==> files[i].parts != [LEGACY_MANIFEST]
    ensures ListsExactly(expected, members) && PayloadOk(members, Some(expected), hash)
  {
    hide SafePath, PathText, Text, Payload, Written, Parts;
    forall p | p in expected
      ensures exists i :: 0 <= i < |members| && Payload(members[i]) && PathText(members[i].name) == p
    {
      var i :| 0 <= i < |files| && Text(files[i]) == p;
      assert Payload(members[i]);
    }
  }

  lemma NoneAbove(members: seq<Member>, files: seq<Entry>, inventory: Bytes)
    requires RealSelection(files) && Faces(members, files, inventory) && AllSafe(members)
    ensures NoFileAbove(members)
  {
    hide SafePath, PathText, PlainParts, Text, ProperPrefix, ManifestName;
    forall i, j | 0 <= i < |members| && 0 <= j < |members| && Payload(members[i]) && Written(members[j])
      ensures !ProperPrefix(Parts(members[i]), Parts(members[j]))
    {
      hide Payload, Written;
      assert i < |files| && j < |files|;
      assert FaceOf(members[i], files[i]) && FaceOf(members[j], files[j]);
    }
  }

  lemma CarriableIsSafe(e: Entry)
    requires PlainParts(e.parts)
    ensures Carriable(e) <==>
              (SafePath(Text(e)).Some? && |e.data| <= DEFAULT_LIMITS.maxFileSize && e.parts != [LEGACY_MANIFEST])
  {
    PlainPathIsSafe(e.parts);
    hide SafePath, Join;
  }

  lemma AllCarriable(files: seq<Entry>)
    requires RealSelection(files)
    ensures (forall i :: 0 <= i < |files| ==> PlainParts(files[i].parts) && Carriable(files[i])) <==>
              (SafeFiles(files)
               && (forall i :: 0 <= i < |files| ==> |files[i].data| <= DEFAULT_LIMITS.maxFileSize)
               && (forall i :: 0 <= i < |files| ==> files[i].parts != [LEGACY_MANIFEST]))
  {
    assert forall i :: 0 <= i < |files| ==> PlainParts(files[i].parts);
    hide SafePath, Join, Text, Carriable, PlainParts, RealSelection;
    forall i | 0 <= i < |files|
      ensures Carriable(files[i]) <==>
                (SafePath(Text(files[i])).Some? && |files[i].data| <= DEFAULT_LIMITS.maxFileSize
                 && files[i].parts != [LEGACY_MANIFEST])
    {
      CarriableIsSafe(files[i]);
    }
  }

  lemma LegacyRefused(files: seq<Entry>, inventory: Bytes, expected: map<string, Expected>, hash: Bytes -> string)
    requires RealSelection(files) && SafeFiles(files) && TableOf(expected, files, hash)
    requires AllSafe(Built(files, inventory)) && ListsExactly(expected, Built(files, inventory))
    ensures forall i :: 0 <= i < |files| ==> files[i].parts != [LEGACY_MANIFEST]
  {
    hide *;
    forall i | 0 <= i < |files| ensures files[i].parts != [LEGACY_MANIFEST] {
      NotHidden(files, inventory, expected, hash, i);
      MemberFacts(files, inventory, i);
    }
  }

  /** What the validator says of an archive whose paths are all safe. */
  lemma SafePackagesExactly(files: seq<Entry>, inventory: Bytes, compressed: nat, sha: string, c: Codec)
    requires RealSelection(files) && SafeFiles(files) && Faithful(files, inventory, c) && Lower(sha) == sha
    ensures Packaged(files, inventory, compressed, sha, c) <==>
              MembersOk(Built(files, inventory), DEFAULT_LIMITS, c.fold) && WithinLimits(files, inventory, compressed)
              && (forall i :: 0 <= i < |files| ==> files[i].parts != [LEGACY_MANIFEST])
  {
    hide SafePath, MembersOk, Embedded, ListsExactly, NoFileAbove, PayloadOk, Total, FoldsApart, TableOf, Faithful, Lower;
    hide RealSelection, SafeFiles, AllSafe, Faces;
    var members := Built(files, inventory);
    BuiltFaces(files, inventory);
    SafeIff(files, inventory);
    InventoryReadBack(files, inventory, c);
    NoneAbove(members, files, inventory);
    MembersExactly(members, files, inventory, c.fold);
    var expected := Embedded(members, c.decode).value;
    if forall i :: 0 <= i < |files| ==> files[i].parts != [LEGACY_MANIFEST] {
      PayloadExactly(members, files, inventory, expected, c.hash);
    } else if ListsExactly(expected, members) {
      LegacyRefused(files, inventory, expected, c.hash);
    }
  }

  /** The packager returns exactly when every selected file can be carried, no two paths and no path
      and the inventory fold together, and the limits hold. */
  lemma PackagesExactly(files: seq<Entry>, inventory: Bytes, compressed: nat, sha: string, c: Codec)
    requires RealSelection(files) && Faithful(files, inventory, c) && Lower(sha) == sha
    ensures Packaged(files, inventory, compressed, sha, c) <==> Archivable(files, inventory, compressed, c.fold)
  {
    hide SafePath, MembersOk, Packaged, RealSelection, Faithful, Faces, SafeFiles, FoldsApart, Total, Lower, Carriable;
    SafeIff(files, inventory);
    AllCarriable(files);
    if SafeFiles(files) {
      BuiltFaces(files, inventory);
      MembersExactly(Built(files, inventory), files, inventory, c.fold);
      SafePackagesExactly(files, inventory, compressed, sha, c);
    } else {
      UnsafeRefused(files, inventory, compressed, sha, c);
    }
  }

  lemma UnsafeRefused(files: seq<Entry>, inventory: Bytes, compressed: nat, sha: string, c: Codec)
    requires !AllSafe(Built(files, inventory))
    ensures !Packaged(files, inventory, compressed, sha, c)
  {
    hide SafePath, HeadersOk, Embedded, ListsExactly, NoFileAbove, PayloadOk, AllSafe;
  }

  // ---- The packager --------------------------------------------------------------------------

  /** Writes the selected files in order and the inventory last, then lets the validator extract the
      result: what comes back is an archive the validator accepts, or nothing. */
  method Package(entries: seq<Entry>, output: seq<string>, encode: seq<Json> -> Bytes, compressed: nat,
                 digest: seq<Member> -> string, c: Codec)
    returns (r: Option<Archive>, files: seq<Entry>)
    requires DistinctTexts(entries)
    ensures (forall e :: e in entries ==> !Forbidden(e)) ==> SelectionOf(files, entries, output)
    ensures r.Some? <==>
              && (forall e :: e in entries ==> !Forbidden(e))
              && Packaged(files, encode(ItemsOf(files, c.hash)), compressed,
                          digest(Built(files, encode(ItemsOf(files, c.hash)))), c)
    ensures r.Some? ==>
              var members := Built(files, encode(ItemsOf(files, c.hash)));
              r.value == Archive(members, compressed, digest(members))
  {
    hide Accepts, Selected, Forbidden, Ascending, ItemOf, DistinctTexts;
    var selection := SelectFiles(entries, output);
    if selection.None? { return None, []; }
    files := selection.value;
    var inventory := encode(ItemsOf(files, c.hash));
    var members: seq<Member> := [];
    var i := 0;
    while i < |files|
      invariant i <= |files| == |Built(files, inventory)| - 1 && members == Built(files, inventory)[..i]
    {
      members := members + [MemberOf(files[i])];
      i := i + 1;
    }
    members := members + [Member(MANIFEST, Regular, |inventory|, inventory)];
    assert members == Built(files, inventory);
    var a := Archive(members, compressed, digest(members));
    var extracted := Extract(a, DEFAULT_LIMITS, Some(a.sha), true, c);
    r := if extracted.Some? then Some(a) else None;
  }

  // ---- There and back --------------------------------------------------------------------------

  /** What walking a directory tree can yield: every entry once, and nothing below a file. */
  ghost predicate RealTree(entries: seq<Entry>)
  {
    && (forall i :: 0 <= i < |entries| ==> PlainParts(entries[i].parts))
    && (forall i, j :: 0 <= i < j < |entries| ==> entries[i].parts != entries[j].parts)
    && (forall i, j :: 0 <= i < |entries| && 0 <= j < |entries| && entries[i].kind.PlainFile? ==>
          !ProperPrefix(entries[i].parts, entries[j].parts))
  }

  lemma RealTexts(entries: seq<Entry>)
    requires RealTree(entries)
    ensures DistinctTexts(entries)
  {
    forall i, j | 0 <= i < j < |entries| ensures Text(entries[i]) != Text(entries[j]) {
      SplitJoin(entries[i].parts) by { assert PlainParts(entries[i].parts); }
      SplitJoin(entries[j].parts) by { assert PlainParts(entries[j].parts); }
    }
  }

  lemma SelectionIsReal(files: seq<Entry>, entries: seq<Entry>, output: seq<string>)
    requires RealTree(entries) && SelectionOf(files, entries, output)
    ensures RealSelection(files)
  {
    hide PlainParts, Skipped, ProperPrefix;
    assert forall i :: 0 <= i < |files| ==> files[i] in entries && Selected(files[i], output);
    forall i, j | 0 <= i < j < |files| ensures files[i].parts != files[j].parts { BelowTotal(Text(files[i]), Text(files[i])); }
    forall i, j | 0 <= i < |files| && 0 <= j < |files| ensures !ProperPrefix(files[i].parts, files[j].parts) {
      var k :| 0 <= k < |entries| && entries[k] == files[i];
      var l :| 0 <= l < |entries| && entries[l] == files[j];
    }
  }

  /** JSON that is read back as it was written, and digests in lower-case hexadecimal. */
  ghost predicate SoundCodec(encode: seq<Json> -> Bytes, c: Codec)
  {
    && (forall items :: c.decode(encode(items)) == Listed(items))
    && (forall data :: Digest(c.hash(data)) && Lower(c.hash(data)) == c.hash(data))
  }

  /** A source file of the Skill: a plain file outside version control, caches and installed modules, other
      than the archive itself and an inventory left at the root. */
  predicate SourceFile(e: Entry, output: seq<string>)
  {
    && e.kind == PlainFile && e.parts != output && e.parts != ["archive-manifest.json"]
    && forall i :: 0 <= i < |e.parts| ==> e.parts[i] !in [".git", ".hg", ".svn", "__pycache__", "node_modules"]
  }

  predicate LinkInSource(e: Entry)
  {
    e.kind == Symlink && forall i :: 0 <= i < |e.parts| ==> e.parts[i] !in [".git", ".hg", ".svn", "__pycache__", "node_modules"]
  }

  lemma SourcesAreSelected(output: seq<string>)
    ensures forall e :: Selected(e, output) <==> SourceFile(e, output)
    ensures forall e :: Forbidden(e) <==> LinkInSource(e)
  {
    forall e: Entry ensures Skipped(e) <==>
      exists i :: 0 <= i < |e.parts| && e.parts[i] in [".git", ".hg", ".svn", "__pycache__", "node_modules"]
    {
      forall i | 0 <= i < |e.parts|
        ensures e.parts[i] in EXCLUDED <==> e.parts[i] in [".git", ".hg", ".svn", "__pycache__", "node_modules"] {}
    }
  }

  /** Packages a Skill directory and extracts the archive. It works exactly when the tree holds no
      forbidden link and its selection can be archived; and then exactly the selected source files come
      back, byte for byte. */
  method PackAndUnpack(entries: seq<Entry>, output: seq<string>, encode: seq<Json> -> Bytes, compressed: nat,
                       digest: seq<Member> -> string, c: Codec)
    returns (tree: Option<Tree>)
    requires RealTree(entries) && SoundCodec(encode, c) && forall members :: Lower(digest(members)) == digest(members)
    ensures tree.Some? <==>
              && (forall e :: e in entries ==> !LinkInSource(e))
              && exists files :: SelectionOf(files, entries, output) && RealSelection(files)
                                 && Archivable(files, encode(ItemsOf(files, c.hash)), compressed, c.fold)
    ensures tree.Some? ==>
              && (forall e :: e in entries && SourceFile(e, output) ==>
                    e.parts in tree.value && tree.value[e.parts] == File(e.data))
              && (forall p :: p in tree.value && tree.value[p].File? ==>
                    exists e :: e in entries && SourceFile(e, output) && e.parts == p)
  {
    SourcesAreSelected(output);
    hide SourceFile, LinkInSource;
    RealTexts(entries);
    var a, files := Package(entries, output, encode, compressed, digest, c);
    ghost var inventory := encode(ItemsOf(files, c.hash));
    ghost var sha := digest(Built(files, inventory));
    if forall e :: e in entries ==> !Forbidden(e) {
      SelectionIsReal(files, entries, output);
      PackagesExactly(files, inventory, compressed, sha, c);
      OnlySelection(files, entries, output);
    }
    hide Archivable, RealSelection, SelectionOf, Packaged;
    if a.None? { return None; }
    tree := Extract(a.value, DEFAULT_LIMITS, Some(a.value.sha), true, c);
    hide Selected, Forbidden;
    PackedAccepted(files, inventory, compressed, sha, c);
    RoundTrip(files, inventory, compressed, sha, c, tree.value);
    SelectionElements(files, entries, output);
  }

  lemma PackedAccepted(files: seq<Entry>, inventory: Bytes, compressed: nat, sha: string, c: Codec)
    requires Packaged(files, inventory, compressed, sha, c)
    ensures Accepts(Archive(Built(files, inventory), compressed, sha), DEFAULT_LIMITS, Some(sha), true, c)
    ensures AllSafe(Built(files, inventory))
  {}

  lemma SelectionElements(files: seq<Entry>, entries: seq<Entry>, output: seq<string>)
    requires SelectionOf(files, entries, output)
    ensures forall e :: e in files <==> e in entries && Selected(e, output)
  {}

  lemma OnlySelection(files: seq<Entry>, entries: seq<Entry>, output: seq<string>)
    requires SelectionOf(files, entries, output)
    ensures forall other :: SelectionOf(other, entries, output) ==> other == files
  {
    forall other | SelectionOf(other, entries, output) ensures other == files {
      SelectionDeterministic(entries, entries, other, files, output);
    }
  }
}
