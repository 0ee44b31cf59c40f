/** Member paths of an archive: what counts as safe, and why a safe path stays below the
    destination and survives being written out and read back. */
module ArchivePaths {
  import opened Common

  /** The pieces between slashes, empty ones included. */
  function Split(s: string): (parts: seq<string>)
    ensures parts != []
    ensures forall i :: 0 <= i < |parts| ==> '/' !in parts[i]
  {
    if s == "" then [""]
    else if s[0] == '/' then [""] + Split(s[1..])
    else var rest := Split(s[1..]); [[s[0]] + rest[0]] + rest[1..]
  }

  function Join(parts: seq<string>): string
  {
    if parts == [] then "" else if |parts| == 1 then parts[0] else parts[0] + "/" + Join(parts[1..])
  }

  function Kept(parts: seq<string>): (r: seq<string>)
    ensures forall i :: 0 <= i < |r| ==> r[i] in parts && r[i] != "" && r[i] != "."
  {
    if parts == [] then []
    else (if parts[0] == "" || parts[0] == "." then [] else [parts[0]]) + Kept(parts[1..])
  }

  predicate EndsWithColon(s: string)
  {
    s != "" && s[|s| - 1] == ':'
  }

  /** `_safe_path`: the normalized parts, unless the name is unsafe. */
  function SafePath(name: string): (r: Option<seq<string>>)
  {
    var parts := Kept(Split(name));
    if name == "" || name[0] == '/' || ".." in parts || '\0' in name || '\\' in name
       || parts == [] || EndsWithColon(parts[0])
    then None else Some(parts)
  }

  function PathText(name: string): string
    requires SafePath(name).Some?
  {
    Join(SafePath(name).value)
  }

  /** A part that names one entry of one directory. */
  predicate PlainPart(p: string)
  {
    p != "" && p != "." && p != ".." && '/' !in p
  }

  predicate PlainParts(parts: seq<string>)
  {
    parts != [] && forall i :: 0 <= i < |parts| ==> PlainPart(parts[i])
  }

  /** A safe path leads below the destination: no part can leave or re-enter a directory. */
  lemma SafeStaysBelow(name: string)
    requires SafePath(name).Some?
    ensures PlainParts(SafePath(name).value)
  {
    var parts := SafePath(name).value;
    forall i | 0 <= i < |parts| ensures PlainPart(parts[i]) {
      assert parts[i] in Split(name);
    }
  }

  lemma {:induction false} SplitPlain(p: string)
    requires '/' !in p
    ensures Split(p) == [p]
  {
    if p != "" {
      assert '/' !in p[1..];
      SplitPlain(p[1..]);
      assert [p[0]] + p[1..] == p;
    }
  }

  lemma {:induction false} SplitConcat(p: string, s: string)
    requires '/' !in p
    ensures Split(p + "/" + s) == [p] + Split(s)
  {
    if p == "" {
      assert (p + "/" + s)[1..] == s;
    } else {
      assert (p + "/" + s)[1..] == p[1..] + "/" + s;
      SplitConcat(p[1..], s);
      assert [p[0]] + p[1..] == p;
    }
  }

  lemma {:induction false} SplitJoin(parts: seq<string>)
    requires parts != [] && forall i :: 0 <= i < |parts| ==> '/' !in parts[i]
    ensures Split(Join(parts)) == parts
  {
    if |parts| == 1 {
      SplitPlain(parts[0]);
    } else {
      SplitJoin(parts[1..]);
      SplitConcat(parts[0], Join(parts[1..]));
    }
  }

  lemma {:induction false} KeptAll(parts: seq<string>)
    requires forall i :: 0 <= i < |parts| ==> parts[i] != "" && parts[i] != "."
    ensures Kept(parts) == parts
  {
    if parts != [] { KeptAll(parts[1..]); }
  }

  /** Characters never come from nowhere: a joined path only uses those of its parts and slashes. */
  lemma {:induction false} JoinChars(parts: seq<string>, c: char)
    requires c != '/' && forall i :: 0 <= i < |parts| ==> c !in parts[i]
    ensures c !in Join(parts)
  {
    if |parts| > 1 { JoinChars(parts[1..], c); }
  }

  lemma {:induction false} SplitChars(s: string, c: char)
    requires c !in s
    ensures forall i :: 0 <= i < |Split(s)| ==> c !in Split(s)[i]
  {
    if s != "" { SplitChars(s[1..], c); }
  }

  /** Exactly the relative paths of a real directory tree that the archive format admits. */
  lemma PlainPathIsSafe(parts: seq<string>)
    requires PlainParts(parts)
    ensures SafePath(Join(parts)).Some? <==>
              '\0' !in Join(parts) && '\\' !in Join(parts) && !EndsWithColon(parts[0])
    ensures SafePath(Join(parts)).Some? ==> SafePath(Join(parts)).value == parts
  {
    SplitJoin(parts);
    KeptAll(parts);
    assert PlainPart(parts[0]);
    JoinHead(parts);
    assert ".." !in parts;
  }

  lemma JoinHead(parts: seq<string>)
    requires parts != [] && parts[0] != ""
    ensures Join(parts) != "" && Join(parts)[0] == parts[0][0]
  {}

  /** Normalizing a normalized path changes nothing. */
  lemma SafePathIdempotent(name: string)
    requires SafePath(name).Some?
    ensures SafePath(PathText(name)) == SafePath(name)
  {
    var parts := SafePath(name).value;
    SafeStaysBelow(name);
    SplitChars(name, '\0');
    SplitChars(name, '\\');
    JoinChars(parts, '\0');
    JoinChars(parts, '\\');
    PlainPathIsSafe(parts);
  }
}
