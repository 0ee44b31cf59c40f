/** Installing a Skill bundle by renames, any of which may fail, with the old bundle kept aside
    until the new one has been validated in place. */
module Installer {
  import opened Common

  /** A bundle directory. `name` is the one its `skill.yaml` declares; `loads` says that the manifest
      is valid under a directory of that name and that its document is `SKILL.md`. */
  datatype Bundle = Bundle(content: string, hasManifest: bool, hasDocument: bool, name: Option<string>, loads: bool)

  /** Where a bundle can be: installed, kept as a backup, or in this operation's own directory. */
  datatype Place = Target(name: string) | Backup(name: string, tag: string) | Scratch(tag: string)

  type Tree = map<Place, Bundle>

  /** A Runtime state file: unreadable, without content, or a state. */
  datatype Lifecycle = Starting | Running | Stopping | Idle
  datatype StateFile =
    | Unreadable
    | Absent
    | State(skill: string, lifecycle: Lifecycle, invocations: set<string>, sessions: set<string>, bindings: set<string>)

  type States = map<string, StateFile>

  /** How every step of one installation turns out. `payload` is what a validated extraction
      yields, if it succeeds. */
  datatype Faults = Faults(
    payload: Option<Bundle>, normalize: bool, load: bool, locked: bool, tag: string, setAside: bool,
    place: bool, reload: bool, moveAway: bool, restore: bool, restoreAgain: bool)

  /** How deleting a directory ends: completely, or early with whatever is left of it. */
  datatype Deletion = Deleted | StoppedEarly(left: Bundle)
  datatype Removal = Removal(locked: bool, moveAway: bool, deletion: Deletion, restore: bool)

  // ---- The busy guard ------------------------------------------------------------------------

  predicate Holds(s: StateFile)
  {
    s.State? && (!s.lifecycle.Idle? || s.invocations != {} || s.sessions != {} || s.bindings != {})
  }

  /** A Skill is active while any state names it and holds something, or its own is unreadable. */
  predicate IsActive(states: States, name: string)
  {
    || (name in states && states[name].Unreadable?)
    || exists stem :: stem in states && Holds(states[stem]) && states[stem].skill == name
  }

  method ActiveSkills(states: States) returns (active: set<string>)
    ensures forall name :: name in active <==> IsActive(states, name)
  {
    active := {};
    var todo := states.Keys;
    while todo != {}
      invariant todo <= states.Keys
      invariant forall name :: name in active <==>
                  (name in states && name !in todo && states[name].Unreadable?)
                  || exists stem :: stem in states && stem !in todo && Holds(states[stem]) && states[stem].skill == name
      decreases |todo|
    {
      var stem :| stem in todo;
      todo := todo - {stem};
      if states[stem].Unreadable? {
        active := active + {stem};
      } else if Holds(states[stem]) {
        active := active + {states[stem].skill};
      }
    }
  }

  // ---- What an installation promises ---------------------------------------------------------

  predicate DirectorySafe(name: string)
  {
    name != "" && name != "." && name != ".." && name != ".backups" && '/' !in name
  }

  /** The extracted bundle passes every check made before anything installed is touched. */
  predicate Acceptable(f: Faults)
  {
    && f.payload.Some?
    && var b := f.payload.value;
       && b.hasManifest && b.hasDocument && b.name.Some? && DirectorySafe(b.name.value) && b.name.value != "extracted"
       && f.normalize && f.load && b.loads
  }

  /** Everything outside this operation's own directory. */
  function Visible(tree: Tree): Tree
  {
    map p | p in tree && !p.Scratch? :: tree[p]
  }

  function Installed(tree: Tree, name: string, tag: string, b: Bundle): Tree
  {
    if Target(name) in tree
    then Visible(tree)[Backup(name, tag) := tree[Target(name)]][Target(name) := b]
    else Visible(tree)[Target(name) := b]
  }

  /** Exactly when an installation returns. */
  predicate Succeeds(tree: Tree, states: States, f: Faults)
  {
    && Acceptable(f)
    && var name := f.payload.value.name.value;
       && f.locked && f.place && f.reload
       && (Target(name) in tree ==> !IsActive(states, name) && f.setAside && Backup(name, f.tag) !in tree)
  }

  /** The bundle names a Skill that is installed and active. */
  predicate Refuses(tree: Tree, states: States, f: Faults)
  {
    Acceptable(f) && Target(f.payload.value.name.value) in tree && IsActive(states, f.payload.value.name.value)
  }

  /** The compensating renames work: a bundle that failed in place can be moved away, and one of
      the two attempts to put the old bundle back succeeds. */
  predicate RollbackWorks(f: Faults)
  {
    (!f.place || f.moveAway) && (f.restore || f.restoreAgain)
  }

  // ---- The renames, as functions of the tree --------------------------------------------------

  /** The tree after `from` was renamed to `to`. */
  function Moved(tree: Tree, from: Place, to: Place): Tree
    requires from in tree
  {
    (tree - {from})[to := tree[from]]
  }

  function Renamed(tree: Tree, from: Place, to: Place, works: bool): Tree
  {
    if works && from in tree && to !in tree then Moved(tree, from, to) else tree
  }

  const NEW := Scratch("bundle")

  /** A bundle that failed in place is moved out; then the old one is put back. */
  function Undone(tree: Tree, name: string, aside: bool, f: Faults): Tree
  {
    var t := Target(name);
    var out := if t in tree then Renamed(tree, t, Scratch("failed"), f.moveAway) else tree;
    if aside then Renamed(out, Backup(name, f.tag), t, f.restore) else out
  }

  /** The new bundle is moved in and validated there, or all of it is undone. */
  function Exchanged(tree: Tree, name: string, aside: bool, f: Faults): Tree
  {
    var placed := Renamed(tree, NEW, Target(name), f.place);
    if f.place && f.reload then placed else Undone(placed, name, aside, f)
  }

  /** From a prepared bundle on: the old one is set aside, the new one moved in; whatever is still
      missing at the end is put back once more. */
  function Swapped(tree: Tree, name: string, active: bool, f: Faults): Tree
  {
    var t, b := Target(name), Backup(name, f.tag);
    if t in tree && (active || !f.setAside || b in tree) then tree
    else
      var out := Exchanged(Renamed(tree, t, b, f.setAside), name, t in tree, f);
      if t in tree && t !in out then Renamed(out, b, t, f.restoreAgain) else out
  }

  lemma UndoneIsAside(aside: Tree, name: string, wasThere: bool, f: Faults)
    requires NEW in aside && Target(name) !in aside && !(f.place && f.reload) && (!f.place || f.moveAway)
    requires Scratch("failed") !in aside && (wasThere ==> Backup(name, f.tag) in aside)
    ensures var out := Exchanged(aside, name, wasThere, f);
            var t, b := Target(name), Backup(name, f.tag);
            && (wasThere && !f.restore ==> t !in out && b in out)
            && Visible(if wasThere && !f.restore then Moved(out, b, t) else out)
               == if wasThere then Visible(Moved(aside, b, t)) else Visible(aside)
  {}

  /** A raise with working compensation leaves exactly what was installed before. */
  lemma SwapUndone(before: Tree, tree: Tree, name: string, active: bool, f: Faults)
    requires NEW in tree && tree == before[NEW := tree[NEW]] && forall p :: p in before ==> !p.Scratch?
    requires RollbackWorks(f)
    requires f.place && f.reload ==>
               Target(name) in before && (active || !f.setAside || Backup(name, f.tag) in before)
    ensures Visible(Swapped(tree, name, active, f)) == before
  {
    var t, b := Target(name), Backup(name, f.tag);
    if !(t in tree && (active || !f.setAside || b in tree)) {
      var aside := Renamed(tree, t, b, f.setAside);
      hide Exchanged;
      UndoneIsAside(aside, name, t in tree, f);
      if t in tree { assert Visible(Moved(aside, b, t)) == before; }
    }
  }

  /** Every bundle installed or backed up before is still there, an installed one possibly aside. */
  ghost predicate Survives(before: Tree, now: Tree, tag: string)
  {
    && (forall name :: Target(name) in before ==>
          || (Target(name) in now && now[Target(name)] == before[Target(name)])
          || (Backup(name, tag) in now && now[Backup(name, tag)] == before[Target(name)]))
    && (forall name, l :: Backup(name, l) in before ==>
          Backup(name, l) in now && now[Backup(name, l)] == before[Backup(name, l)])
  }

  class FileSystem {
    var tree: Tree
    /** Every state the disk went through; the process may die in any of them. */
    ghost var history: seq<Tree>

    constructor (tree: Tree)
      ensures this.tree == tree && history == [tree]
    {
      this.tree := tree;
      history := [tree];
    }

    method Put(p: Place, b: Bundle)
      modifies this
      ensures tree == old(tree)[p := b] && history == old(history) + [tree]
    {
      tree := tree[p := b];
      history := history + [tree];
    }

    method Delete(p: Place)
      modifies this
      ensures tree == old(tree) - {p} && history == old(history) + [tree]
    {
      tree := tree - {p};
      history := history + [tree];
    }

    /** `os.replace` on directories: it fails on its own account or when the goal is taken. */
    method Rename(from: Place, to: Place, works: bool) returns (done: bool)
      requires from != to
      modifies this
      ensures done <==> works && from in old(tree) && to !in old(tree)
      ensures tree == if done then (old(tree) - {from})[to := old(tree)[from]] else old(tree)
      ensures history == if done then old(history) + [tree] else old(history)
    {
      done := works && from in tree && to !in tree;
      if done {
        tree := (tree - {from})[to := tree[from]];
        history := history + [tree];
      }
    }
  }

  /** Nothing of `before` was lost in any state since the history `from`. */
  ghost predicate NothingLost(before: Tree, from: seq<Tree>, history: seq<Tree>, tag: string)
  {
    from <= history && forall k :: |from| <= k < |history| ==> Survives(before, history[k], tag)
  }

  lemma StillNothingLost(before: Tree, a: seq<Tree>, b: seq<Tree>, c: seq<Tree>, tag: string)
    requires NothingLost(before, a, b, tag) && NothingLost(before, b, c, tag)
    ensures NothingLost(before, a, c, tag)
  {}

  class SkillInstaller {
    const disk: FileSystem
    const states: States

    constructor (disk: FileSystem, states: States)
      ensures this.disk == disk && this.states == states
    {
      this.disk, this.states := disk, states;
    }

    /** Extraction and validation inside the operation's own directory. */
    method Prepare(f: Faults) returns (ready: bool)
      requires forall p :: p in disk.tree ==> !p.Scratch?
      modifies disk
      ensures ready <==> Acceptable(f)
      ensures Visible(disk.tree) == old(disk.tree)
      ensures ready ==> disk.tree == old(disk.tree)[Scratch("bundle") := f.payload.value]
      ensures NothingLost(old(disk.tree), old(disk.history), disk.history, f.tag)
    {
      if f.payload.None? { return false; }
      var b := f.payload.value;
      disk.Put(Scratch("extracted"), b);
      if !b.hasManifest || !b.hasDocument || b.name.None? { return false; }
      if !DirectorySafe(b.name.value) || b.name.value == "extracted" { return false; }
      ready := disk.Rename(Scratch("extracted"), Scratch("bundle"), f.normalize);
      if ready { ready := f.load && b.loads; }
    }

    /** Sets an installed bundle aside, unless its Skill is active. */
    method SetAside(name: string, f: Faults, ghost before: Tree) returns (proceed: bool)
      requires Survives(before, disk.tree, f.tag) && Visible(disk.tree) == before
      modifies disk
      ensures proceed <==> (Target(name) in old(disk.tree) ==>
                              !IsActive(states, name) && f.setAside && Backup(name, f.tag) !in old(disk.tree))
      ensures disk.tree == if proceed then Renamed(old(disk.tree), Target(name), Backup(name, f.tag), f.setAside)
                           else old(disk.tree)
      ensures proceed && Target(name) in old(disk.tree) ==>
                Backup(name, f.tag) in disk.tree && disk.tree[Backup(name, f.tag)] == before[Target(name)]
      ensures NothingLost(before, old(disk.history), disk.history, f.tag) && Survives(before, disk.tree, f.tag)
    {
      if Target(name) !in disk.tree { return true; }
      assert Target(name) in Visible(disk.tree);
      assert Backup(name, f.tag) in before ==> Backup(name, f.tag) in disk.tree;
      var active := ActiveSkills(states);
      if name in active { return false; }
      proceed := disk.Rename(Target(name), Backup(name, f.tag), f.setAside);
    }

    /** Moves a bundle that failed in place out again, then puts the old one back. */
    method UndoExchange(name: string, aside: bool, f: Faults, ghost before: Tree)
      requires Scratch("failed") !in disk.tree && Survives(before, disk.tree, f.tag)
      requires aside <==> Target(name) in before
      requires aside ==> Backup(name, f.tag) in disk.tree && Backup(name, f.tag) !in before
                         && disk.tree[Backup(name, f.tag)] == before[Target(name)]
      modifies disk
      ensures disk.tree == Undone(old(disk.tree), name, aside, f)
      ensures NothingLost(before, old(disk.history), disk.history, f.tag) && Survives(before, disk.tree, f.tag)
    {
      if Target(name) in disk.tree {
        var moved := disk.Rename(Target(name), Scratch("failed"), f.moveAway);
        if !moved { return; }
      }
      if aside {
        var restored := disk.Rename(Backup(name, f.tag), Target(name), f.restore);
      }
    }

    /** Moves the new bundle in and validates it there, or undoes all of it. */
    method Exchange(name: string, aside: bool, f: Faults, ghost before: Tree) returns (ok: bool)
      requires NEW in disk.tree && Target(name) !in disk.tree && Scratch("failed") !in disk.tree
      requires Survives(before, disk.tree, f.tag) && (aside <==> Target(name) in before)
      requires aside ==> Backup(name, f.tag) in disk.tree && Backup(name, f.tag) !in before
                         && disk.tree[Backup(name, f.tag)] == before[Target(name)]
      modifies disk
      ensures (ok <==> f.place && f.reload) && disk.tree == Exchanged(old(disk.tree), name, aside, f)
      ensures NothingLost(before, old(disk.history), disk.history, f.tag) && Survives(before, disk.tree, f.tag)
      ensures aside && Target(name) !in disk.tree ==>
                Backup(name, f.tag) in disk.tree && disk.tree[Backup(name, f.tag)] == before[Target(name)]
    {
      var placed := disk.Rename(NEW, Target(name), f.place);
      if placed && f.reload { return true; }
      ghost var between := disk.history;
      UndoExchange(name, aside, f, before);
      StillNothingLost(before, old(disk.history), between, disk.history, f.tag);
      return false;
    }

    /** From the locked, validated bundle on. */
    method Swap(name: string, f: Faults, ghost before: Tree) returns (ok: bool)
      requires NEW in disk.tree && Scratch("failed") !in disk.tree && disk.tree == before[NEW := disk.tree[NEW]]
      requires forall p :: p in before ==> !p.Scratch?
      modifies disk
      ensures disk.tree == Swapped(old(disk.tree), name, IsActive(states, name), f)
      ensures ok <==> f.place && f.reload
                      && (Target(name) in before ==>
                            !IsActive(states, name) && f.setAside && Backup(name, f.tag) !in before)
      ensures NothingLost(before, old(disk.history), disk.history, f.tag)
    {
      assert Visible(disk.tree) == before;
      var aside := Target(name) in disk.tree;
      var proceed := SetAside(name, f, before);
      if !proceed { return false; }
      ghost var h1 := disk.history;
      hide IsActive, Exchanged, Undone;
      ok := Exchange(name, aside, f, before);
      ghost var h2 := disk.history;
      hide Survives;
      StillNothingLost(before, old(disk.history), h1, h2, f.tag);
      if !ok && aside && Target(name) !in disk.tree {
        PutBack(name, f, before);
        StillNothingLost(before, old(disk.history), h2, disk.history, f.tag);
      }
    }

    /** The last attempt to put the old bundle back, made on the way out. */
    method PutBack(name: string, f: Faults, ghost before: Tree)
      requires Target(name) !in disk.tree && Backup(name, f.tag) in disk.tree && Backup(name, f.tag) !in before
      requires Survives(before, disk.tree, f.tag)
      requires Target(name) in before && disk.tree[Backup(name, f.tag)] == before[Target(name)]
      modifies disk
      ensures disk.tree == Renamed(old(disk.tree), Backup(name, f.tag), Target(name), f.restoreAgain)
      ensures NothingLost(before, old(disk.history), disk.history, f.tag)
    {
      var restored := disk.Rename(Backup(name, f.tag), Target(name), f.restoreAgain);
    }

    /** Returns exactly when every step worked and the Skill was not active. A return leaves the new
        bundle installed, the old one backed up and nothing else changed; a raise leaves everything
        as it was, as long as the compensating renames work. At every moment in between, and after
        any failure, every bundle that was there before still is. */
    method Install(f: Faults) returns (ok: bool)
      requires forall p :: p in disk.tree ==> !p.Scratch?
      modifies disk
      ensures ok <==> Succeeds(old(disk.tree), states, f)
      ensures ok ==> disk.tree == Installed(old(disk.tree), f.payload.value.name.value, f.tag, f.payload.value)
      ensures !ok && RollbackWorks(f) ==> Visible(disk.tree) == old(disk.tree)
      ensures Refuses(old(disk.tree), states, f) ==> !ok && Visible(disk.tree) == old(disk.tree)
      ensures NothingLost(old(disk.tree), old(disk.history), disk.history, f.tag)
    {
      hide NothingLost, IsActive, Survives, Swapped, Exchanged;
      var ready := Prepare(f);
      if !ready || !f.locked { return false; }
      ghost var between := disk.history;
      ghost var prepared := disk.tree;
      var name := f.payload.value.name.value;
      ok := Swap(name, f, old(disk.tree));
      if IsActive(states, name) && Target(name) in prepared { ActiveUnmoved(prepared, name, f); }
      StillNothingLost(old(disk.tree), old(disk.history), between, disk.history, f.tag);
      if !ok && RollbackWorks(f) { SwapUndone(old(disk.tree), prepared, name, IsActive(states, name), f); }
      if ok { SwapDone(old(disk.tree), prepared, name, IsActive(states, name), f); }
    }

    /** Refused for an active or missing Skill; a return leaves exactly that Skill gone. When deleting
        stops early, what is put back is whatever was left. */
    method Remove(name: string, f: Removal) returns (ok: bool)
      requires Scratch("removed") !in disk.tree
      modifies disk
      ensures ok <==> f.locked && Target(name) in old(disk.tree) && !IsActive(states, name)
                      && f.moveAway && f.deletion.Deleted?
      ensures ok ==> disk.tree == old(disk.tree) - {Target(name)}
      ensures IsActive(states, name) ==> disk.tree == old(disk.tree)
      ensures Visible(disk.tree) - {Target(name)} == Visible(old(disk.tree)) - {Target(name)}
      ensures Target(name) in disk.tree ==>
                && Target(name) in old(disk.tree)
                && (disk.tree[Target(name)] == old(disk.tree)[Target(name)]
                    || (f.deletion.StoppedEarly? && disk.tree[Target(name)] == f.deletion.left))
    {
      if !f.locked || Target(name) !in disk.tree { return false; }
      var active := ActiveSkills(states);
      if name in active { return false; }
      var moved := disk.Rename(Target(name), Scratch("removed"), f.moveAway);
      if !moved { return false; }
      if f.deletion.Deleted? {
        disk.Delete(Scratch("removed"));
        assert disk.tree == old(disk.tree) - {Target(name)};
        return true;
      }
      disk.Put(Scratch("removed"), f.deletion.left);
      var restored := disk.Rename(Scratch("removed"), Target(name), f.restore);
      return false;
    }
  }

  /** A return leaves exactly the new bundle, with the old one among the backups. */
  lemma SwapDone(before: Tree, tree: Tree, name: string, active: bool, f: Faults)
    requires NEW in tree && tree == before[NEW := tree[NEW]] && forall p :: p in before ==> !p.Scratch?
    requires f.place && f.reload
    requires Target(name) in before ==> !active && f.setAside && Backup(name, f.tag) !in before
    ensures Swapped(tree, name, active, f) == Installed(before, name, f.tag, tree[NEW])
  {
    var t, b := Target(name), Backup(name, f.tag);
    var aside := Renamed(tree, t, b, f.setAside);
    assert t !in aside && NEW in aside && aside[NEW] == tree[NEW];
    assert Exchanged(aside, name, t in tree, f) == Moved(aside, NEW, t);
    assert Visible(before) == before;
  }

  lemma ActiveUnmoved(tree: Tree, name: string, f: Faults)
    requires Target(name) in tree
    ensures Swapped(tree, name, true, f) == tree
  {}

  // ---- In plain terms ------------------------------------------------------------------------

  /** Its own state file can be read, and every state that names the Skill is idle and holds nothing. */
  ghost predicate Free(states: States, name: string)
  {
    && (name in states ==> states[name] != Unreadable)
    && forall stem :: stem in states && states[stem].State? && states[stem].skill == name ==>
         states[stem].lifecycle == Idle && states[stem].invocations == {} && states[stem].sessions == {}
         && states[stem].bindings == {}
  }

  /** Exactly when an installation returns: the archive yields a bundle with manifest and document whose
      name is a plain directory name; it loads, also in place; every rename works; and a Skill that is
      already there is free and its backup's name is not taken. */
  lemma ReturnsExactly(tree: Tree, states: States, f: Faults)
    ensures Succeeds(tree, states, f) <==>
              && f.payload.Some? && f.payload.value.hasManifest && f.payload.value.hasDocument && f.payload.value.loads
              && f.payload.value.name.Some?
              && var name := f.payload.value.name.value;
                 && name !in {"", ".", "..", ".backups", "extracted"} && '/' !in name
                 && f.normalize && f.load && f.locked && f.place && f.reload
                 && (Target(name) in tree ==> Free(states, name) && f.setAside && Backup(name, f.tag) !in tree)
  {
    if f.payload.Some? && f.payload.value.name.Some? { FreeIsIdle(states, f.payload.value.name.value); }
  }

  lemma FreeIsIdle(states: States, name: string)
    ensures Free(states, name) <==> !IsActive(states, name)
  {}

  /** What is there after an installation: the new bundle under its name, the old one, if there was one,
      under its backup's, and everything else where it was. */
  lemma InstalledExactly(tree: Tree, name: string, tag: string, b: Bundle, p: Place)
    requires forall q :: q in tree ==> !q.Scratch?
    requires Target(name) in tree ==> Backup(name, tag) !in tree
    ensures var out := Installed(tree, name, tag, b);
            && (p == Target(name) ==> p in out && out[p] == b)
            && (p == Backup(name, tag) && Target(name) in tree ==> p in out && out[p] == tree[Target(name)])
            && (p != Target(name) && !(p == Backup(name, tag) && Target(name) in tree) ==>
                  (p in out <==> p in tree) && (p in tree ==> out[p] == tree[p]))
  {}
}
