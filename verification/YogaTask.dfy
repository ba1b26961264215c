/**
  The staging task of delivery/yoga_stage.py: directories and files made below one new root, each
  witnessed by its inode, and the cleanup that removes them again.

  A directory entry is keyed by the inode of its directory and its name, as the system calls see it
  through a held descriptor.  While `faulty` holds every call can fail without effect, and an
  interrupt can fall between a call that makes an entry and the assignment that records it.  Other
  programs can change any entry between two calls unless `quiet` holds, also between a stat and the
  unlink or rmdir that follows it.
*/
module YogaTask {

  import opened Basics
  import opened Interference

  type Path = seq<string>

  const MAX_FILES: nat := 10032
  const MAX_DIRECTORIES: nat := 4096
  const MAX_DEPTH: nat := 64

  datatype Node = Node(ino: nat, dir: bool)

  type Key = (nat, string)

  type Entries = map<Key, Node>

  // ----- What the task owns, when every entry it made is witnessed -----

  datatype Tree = Tree(entries: Entries, dirs: map<Path, nat>, files: map<Path, nat>, root: nat, next: nat)

  predicate IsDir(t: Tree, p: Path) { p == [] || p in t.dirs }

  function InoOf(t: Tree, p: Path): nat
    requires IsDir(t, p)
  {
    if p == [] then t.root else t.dirs[p]
  }

  function Init(p: Path): Path { if p == [] then [] else p[..|p| - 1] }

  function Last(p: Path): string { if p == [] then "" else p[|p| - 1] }

  function KeyOf(t: Tree, p: Path): Key
    requires IsDir(t, Init(p))
  {
    (InoOf(t, Init(p)), Last(p))
  }

  /** A directory inode of the task. */
  ghost predicate Ours(t: Tree, ino: nat) { exists p :: IsDir(t, p) && InoOf(t, p) == ino }

  ghost predicate Placed(t: Tree) {
    && (forall p :: p in t.dirs ==> p != [] && IsDir(t, Init(p)) && KeyOf(t, p) in t.entries && t.entries[KeyOf(t, p)] == Node(t.dirs[p], true))
    && (forall p :: p in t.files ==> p != [] && p !in t.dirs && IsDir(t, Init(p)) && KeyOf(t, p) in t.entries && t.entries[KeyOf(t, p)] == Node(t.files[p], false))
  }

  ghost predicate Apart(t: Tree) {
    && (forall p, q :: IsDir(t, p) && IsDir(t, q) && InoOf(t, p) == InoOf(t, q) ==> p == q)
    && (forall p :: IsDir(t, p) ==> InoOf(t, p) < t.next)
  }

  /** Nothing else is in the task's directories. */
  ghost predicate Covered(t: Tree) {
    forall p, n :: IsDir(t, p) && (InoOf(t, p), n) in t.entries ==> p + [n] in t.dirs || p + [n] in t.files
  }

  /** Outside its directories the task made one entry, its root. */
  ghost predicate Outside(t: Tree, base: Entries, home: Key) {
    && home !in base && !Ours(t, home.0) && home.0 < t.next
    && (forall k :: k in base ==> !Ours(t, k.0) && k.0 < t.next)
    && (forall k: Key :: !Ours(t, k.0) ==> (k in t.entries <==> k in base || k == home))
    && (forall k :: k in base ==> k in t.entries && t.entries[k] == base[k])
    && home in t.entries && t.entries[home] == Node(t.root, true)
  }

  ghost predicate Own(t: Tree, base: Entries, home: Key) { Placed(t) && Apart(t) && Covered(t) && Outside(t, base, home) }

  /** A new entry, file or directory. */
  function Add(t: Tree, p: Path, dir: bool): Tree
    requires IsDir(t, Init(p))
  {
    var entries := t.entries[KeyOf(t, p) := Node(t.next, dir)];
    if dir then Tree(entries, t.dirs[p := t.next], t.files, t.root, t.next + 1)
    else Tree(entries, t.dirs, t.files[p := t.next], t.root, t.next + 1)
  }

  function Remove(t: Tree, p: Path, dir: bool): Tree
    requires IsDir(t, Init(p))
  {
    var entries := t.entries - {KeyOf(t, p)};
    if dir then Tree(entries, t.dirs - {p}, t.files, t.root, t.next) else Tree(entries, t.dirs, t.files - {p}, t.root, t.next)
  }

  lemma KeyInjective(t: Tree, p: Path, q: Path)
    requires Apart(t) && p != [] && q != [] && IsDir(t, Init(p)) && IsDir(t, Init(q)) && KeyOf(t, p) == KeyOf(t, q)
    ensures p == q
  {
  }

  lemma InitLast(p: Path, n: string)
    ensures Init(p + [n]) == p && Last(p + [n]) == n
  {
  }

  /** What a new entry does to the directories. */
  lemma AddDirs(t: Tree, p: Path, dir: bool)
    requires p != [] && IsDir(t, Init(p)) && p !in t.dirs
    ensures forall q :: IsDir(t, q) ==> IsDir(Add(t, p, dir), q) && InoOf(Add(t, p, dir), q) == InoOf(t, q)
    ensures forall q :: IsDir(Add(t, p, dir), q) <==> IsDir(t, q) || (dir && q == p)
    ensures dir ==> InoOf(Add(t, p, dir), p) == t.next
  {
  }

  lemma PlacedNew(t: Tree, p: Path)
    requires Placed(t) && p != [] && IsDir(t, Init(p)) && KeyOf(t, p) !in t.entries
    ensures p !in t.dirs && p !in t.files
  {
  }

  lemma AddPlaced(t: Tree, p: Path, dir: bool)
    requires Placed(t) && p != [] && IsDir(t, Init(p)) && KeyOf(t, p) !in t.entries && p !in t.dirs && p !in t.files
    ensures Placed(Add(t, p, dir))
  {
    hide InoOf, Init, Last;
    var u := Add(t, p, dir);
    AddDirs(t, p, dir);
    forall q | q in u.dirs ensures q != [] && IsDir(u, Init(q)) && KeyOf(u, q) in u.entries && u.entries[KeyOf(u, q)] == Node(u.dirs[q], true) {
      assert KeyOf(u, q) == KeyOf(t, q);
    }
    forall q | q in u.files ensures q != [] && q !in u.dirs && IsDir(u, Init(q)) && KeyOf(u, q) in u.entries && u.entries[KeyOf(u, q)] == Node(u.files[q], false) {
      assert KeyOf(u, q) == KeyOf(t, q);
    }
  }

  lemma AddApart(t: Tree, p: Path, dir: bool)
    requires Apart(t) && p != [] && IsDir(t, Init(p)) && p !in t.dirs
    ensures Apart(Add(t, p, dir))
  {
    var u := Add(t, p, dir);
    assert forall q :: IsDir(u, q) ==> (IsDir(t, q) && InoOf(u, q) == InoOf(t, q)) || (dir && q == p && InoOf(u, q) == t.next);
  }

  lemma AddCovered(t: Tree, p: Path, dir: bool, base: Entries, home: Key)
    requires Own(t, base, home) && p != [] && IsDir(t, Init(p)) && p !in t.dirs
    ensures Covered(Add(t, p, dir))
  {
    hide InoOf, Placed;
    var u := Add(t, p, dir);
    AddDirs(t, p, dir);
    assert p == Init(p) + [Last(p)];
    assert forall n :: (t.next, n) !in t.entries by { NextUnused(t, base, home); }
    forall q, n | IsDir(u, q) && (InoOf(u, q), n) in u.entries ensures q + [n] in u.dirs || q + [n] in u.files {
      if IsDir(t, q) && (InoOf(u, q), n) == KeyOf(t, p) {
        assert q == Init(p);
      }
    }
  }

  lemma NextUnused(t: Tree, base: Entries, home: Key)
    requires Apart(t) && Outside(t, base, home)
    ensures forall n :: (t.next, n) !in t.entries
  {
  }

  lemma AddOurs(t: Tree, p: Path, dir: bool)
    requires p != [] && IsDir(t, Init(p)) && p !in t.dirs
    ensures forall i :: Ours(Add(t, p, dir), i) <==> Ours(t, i) || (dir && i == t.next)
  {
    hide InoOf;
    var u := Add(t, p, dir);
    AddDirs(t, p, dir);
    forall i ensures Ours(u, i) <==> Ours(t, i) || (dir && i == t.next) {
      if Ours(t, i) {
        var q :| IsDir(t, q) && InoOf(t, q) == i;
        assert InoOf(u, q) == i;
      }
      if dir { assert InoOf(u, p) == t.next; }
    }
  }

  lemma AddOutside(t: Tree, p: Path, dir: bool, base: Entries, home: Key)
    requires Own(t, base, home) && p != [] && IsDir(t, Init(p)) && p !in t.dirs
    ensures Outside(Add(t, p, dir), base, home)
  {
    assert Ours(t, KeyOf(t, p).0);
    hide InoOf, KeyOf, Placed, Apart, Covered, Ours;
    AddOurs(t, p, dir);
  }

  lemma AddOwn(t: Tree, p: Path, dir: bool, base: Entries, home: Key)
    requires Own(t, base, home) && p != [] && IsDir(t, Init(p)) && KeyOf(t, p) !in t.entries
    ensures Own(Add(t, p, dir), base, home) && p !in t.dirs && p !in t.files
  {
    hide Placed, Apart, Covered, Outside, Add;
    PlacedNew(t, p);
    AddPlaced(t, p, dir);
    AddApart(t, p, dir);
    AddCovered(t, p, dir, base, home);
    AddOutside(t, p, dir, base, home);
  }

  /** The path is one of the task's, and nothing is below it. */
  ghost predicate Removable(t: Tree, p: Path, dir: bool) {
    && p != [] && (if dir then p in t.dirs else p in t.files)
    && (dir ==> forall q :: q in t.dirs || q in t.files ==> Init(q) != p)
  }

  lemma RemoveDirs(t: Tree, p: Path, dir: bool)
    requires p != [] && IsDir(t, Init(p))
    ensures forall q :: IsDir(Remove(t, p, dir), q) <==> IsDir(t, q) && !(dir && q == p)
    ensures forall q :: IsDir(Remove(t, p, dir), q) ==> InoOf(Remove(t, p, dir), q) == InoOf(t, q)
  {
  }

  lemma RemoveApart(t: Tree, p: Path, dir: bool)
    requires Apart(t) && p != [] && IsDir(t, Init(p))
    ensures Apart(Remove(t, p, dir))
  {
    hide InoOf;
    RemoveDirs(t, p, dir);
  }

  /** The other entries keep their keys. */
  lemma RemoveKeys(t: Tree, p: Path, dir: bool, q: Path)
    requires Placed(t) && Apart(t) && Removable(t, p, dir) && IsDir(t, Init(p))
    requires q in Remove(t, p, dir).dirs || q in Remove(t, p, dir).files
    ensures q != [] && IsDir(Remove(t, p, dir), Init(q)) && KeyOf(Remove(t, p, dir), q) == KeyOf(t, q) && KeyOf(t, q) != KeyOf(t, p)
  {
    hide InoOf, Apart;
    RemoveDirs(t, p, dir);
    if KeyOf(t, q) == KeyOf(t, p) {
      KeyInjective(t, p, q);
    }
  }

  lemma RemovePlaced(t: Tree, p: Path, dir: bool)
    requires Placed(t) && Apart(t) && Removable(t, p, dir) && IsDir(t, Init(p))
    ensures Placed(Remove(t, p, dir))
  {
    hide InoOf, KeyOf, IsDir, Init, Apart, Removable;
    var u := Remove(t, p, dir);
    forall q | q in u.dirs || q in u.files ensures q != [] && IsDir(u, Init(q)) && IsDir(t, Init(q)) && KeyOf(u, q) == KeyOf(t, q) && KeyOf(t, q) != KeyOf(t, p) {
      RemoveKeys(t, p, dir, q);
    }
  }

  lemma ChildKey(t: Tree, q: Path, n: string)
    requires IsDir(t, q)
    ensures Init(q + [n]) == q && KeyOf(t, q + [n]) == (InoOf(t, q), n)
  {
  }

  lemma RemoveCovered(t: Tree, p: Path, dir: bool)
    requires Covered(t) && p != [] && IsDir(t, Init(p))
    ensures Covered(Remove(t, p, dir))
  {
    hide InoOf, KeyOf;
    var u := Remove(t, p, dir);
    RemoveDirs(t, p, dir);
    forall q, n | IsDir(u, q) && (InoOf(u, q), n) in u.entries ensures q + [n] in u.dirs || q + [n] in u.files {
      ChildKey(t, q, n);
    }
  }

  lemma RemoveOurs(t: Tree, p: Path, dir: bool)
    requires Placed(t) && Apart(t) && Covered(t) && Removable(t, p, dir) && IsDir(t, Init(p))
    ensures forall i :: Ours(Remove(t, p, dir), i) ==> Ours(t, i)
    ensures forall k: Key :: Ours(t, k.0) && !Ours(Remove(t, p, dir), k.0) ==> k !in t.entries
  {
    hide InoOf, Apart;
    var u := Remove(t, p, dir);
    RemoveDirs(t, p, dir);
    forall k: Key | Ours(t, k.0) && !Ours(u, k.0) ensures k !in t.entries {
      var q :| IsDir(t, q) && InoOf(t, q) == k.0;
      assert !IsDir(u, q);
      InitLast(q, k.1);
    }
  }

  lemma RemoveOutside(t: Tree, p: Path, dir: bool, base: Entries, home: Key)
    requires Own(t, base, home) && Removable(t, p, dir) && IsDir(t, Init(p))
    ensures Outside(Remove(t, p, dir), base, home)
  {
    RemoveOurs(t, p, dir);
    assert Ours(t, KeyOf(t, p).0);
    hide InoOf, KeyOf, Placed, Apart, Covered, Ours, Removable, Init;
    OutsideKept(t, Remove(t, p, dir), KeyOf(t, p), base, home);
  }

  /** One of our own entries goes; directories that are no longer ours had no entries. */
  lemma OutsideKept(t: Tree, u: Tree, gone: Key, base: Entries, home: Key)
    requires Outside(t, base, home) && Ours(t, gone.0) && u.entries == t.entries - {gone} && u.root == t.root && u.next == t.next
    requires forall i :: Ours(u, i) ==> Ours(t, i)
    requires forall k: Key :: Ours(t, k.0) && !Ours(u, k.0) ==> k !in t.entries
    ensures Outside(u, base, home)
  {
    hide Ours;
    forall k: Key | !Ours(u, k.0) ensures k in u.entries <==> k in base || k == home {
      assert Ours(t, k.0) ==> k !in t.entries && k !in base && k != home;
    }
  }

  lemma RemoveOwn(t: Tree, p: Path, dir: bool, base: Entries, home: Key)
    requires Own(t, base, home) && Removable(t, p, dir)
    ensures IsDir(t, Init(p)) && Own(Remove(t, p, dir), base, home)
    ensures KeyOf(t, p) in t.entries && t.entries[KeyOf(t, p)] == Node(if dir then t.dirs[p] else t.files[p], dir)
  {
    hide Apart, Covered, Outside, Remove;
    assert IsDir(t, Init(p));
    RemovePlaced(t, p, dir);
    RemoveApart(t, p, dir);
    RemoveCovered(t, p, dir);
    RemoveOutside(t, p, dir, base, home);
  }

  /** An empty directory of the task has no entries at all. */
  lemma NothingBelow(t: Tree, p: Path)
    requires Covered(t) && IsDir(t, p) && forall q :: q in t.dirs || q in t.files ==> q == [] || Init(q) != p
    ensures forall k :: k in t.entries ==> k.0 != InoOf(t, p)
  {
    forall k | k in t.entries ensures k.0 != InoOf(t, p) {
      InitLast(p, k.1);
      assert k == (k.0, k.1);
    }
  }

  /** With everything removed only the root entry is left, and without it all is as before. */
  lemma AllRemoved(t: Tree, base: Entries, home: Key)
    requires Own(t, base, home) && t.dirs == map[] && t.files == map[]
    ensures t.entries - {home} == base
  {
    assert forall i :: Ours(t, i) <==> i == t.root by {
      assert IsDir(t, []) && InoOf(t, []) == t.root;
    }
    NothingBelow(t, []);
    assert forall k :: k in t.entries - {home} <==> k in base;
  }

  // ----- The task -----

  predicate AllSeen(m: map<Path, Option<nat>>) { forall p :: p in m ==> m[p].Some? }

  /** What is recorded is there, and with the recorded inode where that is known. */
  ghost predicate Agrees(m: map<Path, Option<nat>>, tree: map<Path, nat>) {
    forall p :: p in m ==> p in tree && (m[p].Some? ==> m[p].value == tree[p])
  }

  lemma AgreesAdd(m: map<Path, Option<nat>>, tree: map<Path, nat>, p: Path, ino: nat, seen: Option<nat>)
    requires Agrees(m, tree) && p !in tree && (seen.Some? ==> seen.value == ino)
    ensures Agrees(m[p := seen], tree[p := ino]) && Agrees(m, tree[p := ino]) && p !in m
    ensures m[p := seen].Keys == tree[p := ino].Keys <==> m.Keys == tree.Keys
    ensures m.Keys != tree[p := ino].Keys
  {
    assert m[p := seen].Keys == m.Keys + {p} && tree[p := ino].Keys == tree.Keys + {p};
    assert p !in m.Keys && p in tree[p := ino].Keys;
    if m.Keys + {p} == tree.Keys + {p} {
      assert m.Keys == m.Keys + {p} - {p} == tree.Keys + {p} - {p} == tree.Keys;
    }
  }

  /** The inodes recorded for directories are those of the tree. */
  ghost predicate Recorded(t: Tree, directories: map<Path, Option<nat>>) {
    forall p :: p in t.dirs ==> p in directories && directories[p] == Some(t.dirs[p])
  }

  /** The entry is the expected one and, as a directory, empty. */
  predicate Takeable(entries: Entries, at: nat, n: string, expected: nat, dir: bool) {
    && (at, n) in entries && entries[(at, n)] == Node(expected, dir)
    && (dir ==> forall k :: k in entries ==> k.0 != expected)
  }

  /** The recorded file is in this directory under its name. */
  predicate Makes(entries: Entries, at: nat, n: string, ino: Option<nat>) {
    ino.Some? && (at, n) in entries && entries[(at, n)] == Node(ino.value, false)
  }

  predicate DirPathOk(p: Path) {
    |p| <= MAX_DEPTH && forall i :: 0 <= i < |p| ==> p[i] != "." && p[i] != ".." && |p[i]| <= 255
  }

  ghost predicate PathsOk(directories: map<Path, Option<nat>>, files: map<Path, Option<nat>>) {
    && (forall p :: p in directories ==> p != [] && DirPathOk(p))
    && (forall p :: p in files ==> p != [] && DirPathOk(Init(p)))
  }

  lemma {:induction false} PrefixDirs(t: Tree, p: Path, i: nat)
    requires Placed(t) && IsDir(t, p) && i <= |p|
    ensures IsDir(t, p[..i])
    decreases |p|
  {
    if i < |p| {
      PrefixDirs(t, Init(p), i);
      assert Init(p)[..i] == p[..i];
    } else {
      assert p[..i] == p;
    }
  }

  /** A directory entry of one of our directories is one of our directories. */
  lemma StepDown(t: Tree, p: Path, n: string)
    requires Placed(t) && Covered(t) && IsDir(t, p) && (InoOf(t, p), n) in t.entries && t.entries[(InoOf(t, p), n)].dir
    ensures IsDir(t, p + [n]) && InoOf(t, p + [n]) == t.entries[(InoOf(t, p), n)].ino
  {
    InitLast(p, n);
    assert KeyOf(t, p + [n]) == (InoOf(t, p), n);
  }

  /** The next directory on the way is there, and is the recorded one. */
  lemma WalkStep(t: Tree, relative: Path, i: nat, directories: map<Path, Option<nat>>)
    requires Placed(t) && Recorded(t, directories) && IsDir(t, relative) && i < |relative|
    ensures var p := relative[..i + 1];
            && IsDir(t, relative[..i]) && IsDir(t, p) && p in directories && directories[p] == Some(InoOf(t, p))
            && (InoOf(t, relative[..i]), relative[i]) in t.entries && t.entries[(InoOf(t, relative[..i]), relative[i])] == Node(InoOf(t, p), true)
  {
    PrefixDirs(t, relative, i + 1);
    PrefixDirs(t, relative, i);
    var p := relative[..i + 1];
    assert Init(p) == relative[..i] && Last(p) == relative[i];
    assert p in t.dirs && t.entries[KeyOf(t, p)] == Node(t.dirs[p], true);
  }

  /** As long as anything is left, something is left in the root. */
  lemma RootNotEmpty(t: Tree, p: Path)
    requires Placed(t) && (p in t.dirs || p in t.files)
    ensures exists k :: k in t.entries && k.0 == t.root
  {
    var q := if p in t.dirs then p else Init(p);
    if q == [] {
      assert KeyOf(t, p) in t.entries && KeyOf(t, p).0 == t.root;
    } else {
      PrefixDirs(t, q, 1);
      assert q[..1] in t.dirs && Init(q[..1]) == [];
      assert KeyOf(t, q[..1]) in t.entries && KeyOf(t, q[..1]).0 == t.root;
    }
  }

  /** An empty directory of ours can go. */
  lemma EmptyRemovable(t: Tree, p: Path)
    requires Placed(t) && p in t.dirs && forall k :: k in t.entries ==> k.0 != t.dirs[p]
    ensures Removable(t, p, true)
  {
    forall q | q in t.dirs || q in t.files ensures Init(q) != p {
      assert KeyOf(t, q) in t.entries;
    }
  }

  /** The last act of the others on this entry put something else there. */
  predicate Swapped(window: seq<Act<Key, Node>>, key: Key, expected: nat) {
    LastAct(window, key).Some? && LastAct(window, key).value.Put? && LastAct(window, key).value.value.ino != expected
  }

  /**
    The stat saw the recorded inode.  What the unlink or rmdir then finds is another one if and only
    if the last act of the others on that entry, in between, put it there.
  */
  lemma RemovalRace(entries: Entries, key: Key, window: seq<Act<Key, Node>>, expected: nat)
    requires key in entries && entries[key].ino == expected
    ensures var found := Acts(entries, window);
            (key in found && found[key].ino != expected) <==> Swapped(window, key, expected)
  {
    ActsAt(entries, window, key);
  }

  /** Such a run: the file with inode 5 is replaced by inode 9 in the window, and the unlink removes inode 9. */
  lemma RaceRemovesOther()
    ensures var key: Key := (3, "x");
            var window: seq<Act<Key, Node>> := [Put(key, Node(9, false))];
            && Swapped(window, key, 5) && Acts(map[key := Node(5, false)], window) == map[key := Node(9, false)]
            && map[key := Node(9, false)] - {key} == map[]
  {
    var key: Key := (3, "x");
    var window: seq<Act<Key, Node>> := [Put(key, Node(9, false))];
    assert window[..0] == [];
    assert Acts(map[key := Node(5, false)], window) == map[key := Node(5, false)][key := Node(9, false)] == map[key := Node(9, false)];
  }

  /** What a quiet run knows of the directory tree: `t` is all that the task made, recorded or not. */
  ghost predicate Known(t: Tree, base: Entries, home: Key, entries: Entries, next: nat, root: Option<nat>,
                        directories: map<Path, Option<nat>>, files: map<Path, Option<nat>>) {
    && t.entries == entries && t.next == next && (root.Some? ==> root.value == t.root)
    && Own(t, base, home) && Agrees(directories, t.dirs) && Agrees(files, t.files)
  }

  /** Something was made that is not recorded. */
  ghost predicate Missing(t: Tree, created: bool, directories: map<Path, Option<nat>>, files: map<Path, Option<nat>>) {
    !created || directories.Keys != t.dirs.Keys || files.Keys != t.files.Keys
  }

  /** A new directory or file: recorded with what is known of it, or lost. */
  lemma Added(t: Tree, p: Path, dir: bool, base: Entries, home: Key, root: Option<nat>, directories: map<Path, Option<nat>>,
              files: map<Path, Option<nat>>, seen: Option<Option<nat>>)
    requires Known(t, base, home, t.entries, t.next, root, directories, files)
    requires p != [] && IsDir(t, Init(p)) && KeyOf(t, p) !in t.entries && (seen.Some? && seen.value.Some? ==> seen.value.value == t.next)
    ensures var u := Add(t, p, dir);
            var d := if dir && seen.Some? then directories[p := seen.value] else directories;
            var f := if !dir && seen.Some? then files[p := seen.value] else files;
            && Known(u, base, home, u.entries, u.next, root, d, f)
            && (Missing(u, true, d, f) <==> seen.None? || Missing(t, true, directories, files))
    ensures p !in t.dirs && p !in t.files
  {
    hide Own, Agrees;
    AddOwn(t, p, dir, base, home);
    AgreesAdd(if dir then directories else files, if dir then t.dirs else t.files, p, t.next, if seen.Some? then seen.value else None);
  }

  lemma RootKnown(t: Tree, base: Entries, home: Key)
    requires Own(t, base, home) && t.dirs == map[] && t.files == map[]
    ensures Known(t, base, home, t.entries, t.next, None, map[], map[])
    ensures Missing(t, false, map[], map[]) && !Missing(t, true, map[], map[])
  {
    hide Own;
  }

  /** The inode of a recorded entry becomes known. */
  lemma WitnessedToo(t: Tree, base: Entries, home: Key, entries: Entries, next: nat, root: Option<nat>,
                     directories: map<Path, Option<nat>>, files: map<Path, Option<nat>>, p: Path, dir: bool, ino: nat)
    requires Known(t, base, home, entries, next, root, directories, files)
    requires if dir then p in directories && p in t.dirs && t.dirs[p] == ino else p in files && p in t.files && t.files[p] == ino
    ensures var d := if dir then directories[p := Some(ino)] else directories;
            var f := if dir then files else files[p := Some(ino)];
            Known(t, base, home, entries, next, root, d, f) && (Missing(t, true, d, f) <==> Missing(t, true, directories, files))
  {
    hide Own;
    assert directories[p := Some(ino)].Keys == directories.Keys + {p} && files[p := Some(ino)].Keys == files.Keys + {p};
    if dir { assert directories.Keys + {p} == directories.Keys; } else { assert files.Keys + {p} == files.Keys; }
  }

  lemma PathsAdd(directories: map<Path, Option<nat>>, files: map<Path, Option<nat>>, p: Path, dir: bool, seen: Option<nat>)
    requires PathsOk(directories, files) && p != [] && (if dir then DirPathOk(p) else DirPathOk(Init(p)))
    ensures if dir then PathsOk(directories[p := seen], files) else PathsOk(directories, files[p := seen])
  {
    hide DirPathOk;
  }

  lemma PathsAgain(directories: map<Path, Option<nat>>, files: map<Path, Option<nat>>, p: Path, dir: bool, seen: Option<nat>)
    requires PathsOk(directories, files) && (if dir then p in directories else p in files)
    ensures if dir then PathsOk(directories[p := seen], files) else PathsOk(directories, files[p := seen])
  {
    hide DirPathOk;
  }

  class Task {
    const parent: nat
    const name: string
    var entries: Entries
    var next: nat
    var files: map<Path, Option<nat>>
    var directories: map<Path, Option<nat>>
    var created: bool
    var root: Option<nat>
    var quiet: bool
    var faulty: bool
    /** An interrupt fell between the making of an entry and its recording. */
    var lost: bool
    /** The entries before the task; whether the root was made; all that the task made. */
    ghost var base: Entries
    ghost var made: bool
    ghost var tree: Tree
    /** An entry with another inode was removed; others put one between a stat and the removal. */
    ghost var harmed: bool
    ghost var raced: bool

    ghost predicate Witnessed()
      reads this
    {
      created && root.Some? && AllSeen(files) && AllSeen(directories)
    }

    ghost predicate Truth()
      reads this
    {
      if made then
        && Known(tree, base, (parent, name), entries, next, root, directories, files)
        && (lost <==> Missing(tree, created, directories, files))
      else entries == base && !lost && files == map[] && directories == map[] && parent < next && forall k :: k in base ==> k.0 < next
    }

    ghost predicate Sound()
      reads this
    {
      && (harmed <==> raced) && (quiet ==> !harmed) && (created ==> made) && (root.Some? ==> created)
      && PathsOk(directories, files) && (quiet ==> Truth())
    }

    /** Other programs, unless the run is quiet. */
    method Interfere() returns (acts: seq<Act<Key, Node>>)
      modifies `entries
      ensures entries == Acts(old(entries), acts) && (quiet ==> acts == [] && entries == old(entries))
    {
      acts := *;
      if quiet {
        acts := [];
      }
      entries := Acts(entries, acts);
    }

    method Fails() returns (fail: bool)
      ensures fail ==> faulty
    {
      fail := *;
      fail := fail && faulty;
    }

    /** mkdir and open(O_CREAT | O_EXCL): refused where the name is taken. */
    method Make(at: nat, n: string, dir: bool) returns (ok: bool)
      modifies `entries, `next
      ensures ok ==> (at, n) !in old(entries) && entries == old(entries)[(at, n) := Node(old(next), dir)] && next == old(next) + 1
      ensures !ok ==> entries == old(entries) && next == old(next)
    {
      var fail := Fails();
      ok := !fail && (at, n) !in entries;
      if ok {
        entries, next := entries[(at, n) := Node(next, dir)], next + 1;
      }
    }

    /** The stat, then the unlink or rmdir; a directory goes only when it is empty. */
    method Take(at: nat, n: string, expected: nat, dir: bool) returns (ok: bool)
      requires harmed <==> raced
      modifies `entries, `harmed, `raced
      ensures (harmed <==> raced) && (quiet ==> harmed == old(harmed))
      ensures quiet && ok ==> Takeable(old(entries), at, n, expected, dir) && entries == old(entries) - {(at, n)}
      ensures quiet && !ok ==> entries == old(entries)
      ensures quiet && !faulty && Takeable(old(entries), at, n, expected, dir) ==> ok
    {
      var fail := Fails();
      if fail || (at, n) !in entries || entries[(at, n)] != Node(expected, dir) {
        return false;
      }
      ghost var statSaw := entries;
      var window := Interfere();
      fail := Fails();
      if fail || (at, n) !in entries || entries[(at, n)].dir != dir || (dir && exists k :: k in entries && k.0 == entries[(at, n)].ino) {
        return false;
      }
      RemovalRace(statSaw, (at, n), window, expected);
      harmed := harmed || entries[(at, n)].ino != expected;
      raced := raced || Swapped(window, (at, n), expected);
      entries := entries - {(at, n)};
      ok := true;
    }

    /** directory(relative): walk the recorded directories, each of which must still be the one recorded. */
    method Walk(relative: Path, ghost t: Tree) returns (r: Option<nat>)
      requires root.Some? && PathsOk(directories, files)
      modifies `entries
      ensures quiet ==> entries == old(entries)
      ensures quiet && t.entries == old(entries) && t.root == root.value && Placed(t) && Covered(t) ==>
                && (r.Some? ==> IsDir(t, relative) && r.value == InoOf(t, relative))
                && (!faulty && DirPathOk(relative) && Recorded(t, directories) && IsDir(t, relative) ==> r.Some?)
    {
      hide Placed, Covered, Recorded, DirPathOk, InoOf, PathsOk;
      if !DirPathOk(relative) {
        return None;
      }
      var current := root.value;
      ghost var known := quiet && t.entries == old(entries) && t.root == root.value && Placed(t) && Covered(t);
      RootIno(t);
      for i := 0 to |relative|
        invariant quiet ==> entries == old(entries)
        invariant known ==> IsDir(t, relative[..i]) && current == InoOf(t, relative[..i])
      {
        var _ := Interfere();
        var p, part := relative[..i + 1], relative[i];
        assert p == relative[..i] + [part];
        if known && Recorded(t, directories) && IsDir(t, relative) {
          WalkStep(t, relative, i, directories);
        }
        if p !in directories {
          return None;
        }
        var fail := Fails();
        if fail || (current, part) !in entries || !entries[(current, part)].dir || directories[p] != Some(entries[(current, part)].ino) {
          return None;
        }
        if known {
          StepDown(t, relative[..i], part);
        }
        current := entries[(current, part)].ino;
      }
      assert relative[..|relative|] == relative;
      return Some(current);
    }

    lemma RootIno(t: Tree)
      ensures IsDir(t, []) && InoOf(t, []) == t.root
    {
    }

    /** The recorded inode of a directory; the root's for the empty path. */
    ghost function Ino(p: Path): Option<nat>
      reads this
    {
      if p == [] then root else if p in directories then directories[p] else None
    }

    /** directory(relative, create=True): as above, making and witnessing what is missing. */
    method Reach(relative: Path) returns (r: Option<nat>)
      requires Sound() && root.Some?
      modifies `entries, `next, `directories, `files, `lost, `tree
      ensures Sound() && files == old(files) && (r.Some? ==> r == Ino(relative))
      ensures quiet && r.Some? ==> IsDir(tree, relative) && r.value == InoOf(tree, relative)
    {
      hide Sound, DirPathOk, InoOf;
      if !DirPathOk(relative) {
        return None;
      }
      var current := root.value;
      if quiet { KnownRoot(); }
      for i := 0 to |relative|
        invariant Sound() && files == old(files) && Ino(relative[..i]) == Some(current)
        invariant quiet ==> IsDir(tree, relative[..i]) && current == InoOf(tree, relative[..i])
      {
        var _ := Disturb();
        var p, part := relative[..i + 1], relative[i];
        assert p == relative[..i] + [part];
        InitLast(relative[..i], part);
        DirPrefixOk(relative, i + 1);
        if p !in directories {
          if |directories| >= MAX_DIRECTORIES {
            return None;
          }
          var done := MakeDirectory(p, current);
          if !done {
            return None;
          }
        }
        var _ := Disturb();
        var fail := Fails();
        if fail || (current, part) !in entries || !entries[(current, part)].dir || directories[p] != Some(entries[(current, part)].ino) {
          return None;
        }
        if quiet { KnownStep(relative[..i], part); }
        current := entries[(current, part)].ino;
      }
      assert relative[..|relative|] == relative;
      return Some(current);
    }

    lemma KnownRoot()
      requires Sound() && root.Some? && quiet
      ensures IsDir(tree, []) && InoOf(tree, []) == root.value
    {
    }

    lemma KnownStep(p: Path, n: string)
      requires Sound() && root.Some? && quiet && IsDir(tree, p) && (InoOf(tree, p), n) in entries && entries[(InoOf(tree, p), n)].dir
      ensures IsDir(tree, p + [n]) && InoOf(tree, p + [n]) == entries[(InoOf(tree, p), n)].ino
    {
      StepDown(tree, p, n);
    }

    lemma DirPrefixOk(p: Path, n: nat)
      requires DirPathOk(p) && n <= |p|
      ensures DirPathOk(p[..n])
    {
    }

    /** An entry is made and recorded as not yet witnessed; an interrupt in between loses it. */
    method NewEntry(p: Path, dir: bool, at: nat) returns (done: bool)
      requires Sound() && root.Some? && p != [] && (if dir then DirPathOk(p) else DirPathOk(Init(p)))
      requires quiet ==> IsDir(tree, Init(p)) && at == InoOf(tree, Init(p))
      modifies `entries, `next, `directories, `files, `lost, `tree
      ensures Sound()
      ensures directories == (if done && dir then old(directories)[p := None] else old(directories))
      ensures files == (if done && !dir then old(files)[p := None] else old(files))
      ensures done ==> (at, Last(p)) in entries && entries[(at, Last(p))] == Node(old(next), dir)
      ensures done && quiet ==> IsDir(tree, Init(p)) && at == InoOf(tree, Init(p))
      ensures done && quiet ==> if dir then p in tree.dirs && tree.dirs[p] == old(next) else p in tree.files && tree.files[p] == old(next)
    {
      hide Own, Known, Missing, DirPathOk, InoOf, PathsOk;
      done := Make(at, Last(p), dir);
      if !done {
        return false;
      }
      var interrupted := Fails();
      if quiet {
        KnownNow(old(entries), old(next));
        Added(tree, p, dir, base, (parent, name), root, directories, files, if interrupted then None else Some(None));
        AddDirs(tree, p, dir);
        tree := Add(tree, p, dir);
      }
      if interrupted {
        lost := true;
        return false;
      }
      PathsAdd(directories, files, p, dir, None);
      if dir {
        directories := directories[p := None];
      } else {
        files := files[p := None];
      }
    }

    /** The inode of a recorded entry becomes known. */
    method Witness(p: Path, dir: bool, ino: nat)
      requires Sound() && created && (if dir then p in directories && directories[p].None? else p in files && files[p].None?)
      requires quiet ==> (if dir then p in tree.dirs && tree.dirs[p] == ino else p in tree.files && tree.files[p] == ino)
      modifies `directories, `files
      ensures Sound()
      ensures directories == (if dir then old(directories)[p := Some(ino)] else old(directories))
      ensures files == (if dir then old(files) else old(files)[p := Some(ino)])
    {
      hide Own, PathsOk, Agrees, Known, Missing;
      if quiet { WitnessedToo(tree, base, (parent, name), entries, next, root, directories, files, p, dir, ino); }
      PathsAgain(directories, files, p, dir, Some(ino));
      if dir {
        directories := directories[p := Some(ino)];
      } else {
        files := files[p := Some(ino)];
      }
    }

    method MakeDirectory(p: Path, current: nat) returns (done: bool)
      requires Sound() && root.Some? && p != [] && DirPathOk(p) && p !in directories
      requires quiet ==> IsDir(tree, Init(p)) && current == InoOf(tree, Init(p))
      modifies `entries, `next, `directories, `files, `lost, `tree
      ensures Sound() && files == old(files) && (forall q :: q in old(directories) ==> q in directories && directories[q] == old(directories)[q])
      ensures done ==> p in directories
      ensures quiet && done ==> IsDir(tree, Init(p)) && current == InoOf(tree, Init(p))
    {
      hide Sound, DirPathOk, InoOf, IsDir, Init, Last;
      done := NewEntry(p, true, current);
      if done {
        done := StatDirectory(p, current);
      }
    }

    /** The stat by name that witnesses a new directory. */
    method StatDirectory(p: Path, current: nat) returns (done: bool)
      requires Sound() && root.Some? && p in directories && directories[p].None?
      requires quiet ==> p in tree.dirs && (current, Last(p)) in entries && entries[(current, Last(p))].ino == tree.dirs[p]
      modifies `entries, `directories, `files
      ensures Sound() && files == old(files) && (quiet ==> entries == old(entries))
      ensures directories.Keys == old(directories).Keys && forall q :: q in directories && q != p ==> directories[q] == old(directories)[q]
    {
      RootCreated();
      hide Sound, Last;
      var _ := Disturb();
      var fail := Fails();
      if fail || (current, Last(p)) !in entries {
        return false;
      }
      Witness(p, true, entries[(current, Last(p))].ino);
      fail := Fails();
      done := !fail;
    }

    lemma RootCreated()
      requires Sound() && root.Some?
      ensures created && made
    {
    }

    /** Interference between two calls. */
    method Disturb() returns (acts: seq<Act<Key, Node>>)
      requires Sound()
      modifies `entries
      ensures Sound() && (quiet ==> entries == old(entries))
    {
      hide Own, Known, Missing, PathsOk;
      acts := Interfere();
    }

    lemma KnownNow(e: Entries, n: nat)
      requires made && Known(tree, base, (parent, name), e, n, root, directories, files)
      ensures tree.entries == e && tree.next == n
      ensures Known(tree, base, (parent, name), tree.entries, tree.next, root, directories, files)
    {
    }

    constructor (entries: Entries, parent: nat, name: string, next: nat, quiet: bool, faulty: bool)
      requires parent < next && forall k :: k in entries ==> k.0 < next
      ensures Sound() && !made && !created && root.None? && base == entries && this.parent == parent && this.name == name
      ensures this.quiet == quiet && this.faulty == faulty && !lost && files == map[] && directories == map[] && this.entries == entries
    {
      this.entries, this.parent, this.name, this.next := entries, parent, name, next;
      this.quiet, this.faulty, this.base := quiet, faulty, entries;
      this.harmed, this.raced, this.lost, this.made := false, false, false, false;
      this.tree := Tree(map[], map[], map[], 0, 0);
      files, directories, created, root := map[], map[], false, None;
    }

    /** The new root, held and witnessed. */
    method Create() returns (ok: bool)
      requires Sound() && !made && root.None? && files == map[] && directories == map[] && !lost
      modifies `entries, `next, `created, `root, `lost, `made, `tree
      ensures Sound() && (ok ==> root.Some?) && (quiet && !made ==> entries == old(entries))
    {
      hide Own, PathsOk, Known, Missing;
      ok := Make(parent, name, true);
      if !ok {
        return;
      }
      made := true;
      if quiet {
        NewRoot(base, (parent, name), old(next));
        tree := Tree(entries, map[], map[], old(next), next);
        RootKnown(tree, base, (parent, name));
      }
      var interrupted := Fails();
      if interrupted {
        lost := true;
        return false;
      }
      created := true;
      ok := HoldRoot();
    }

    /** The root is opened and witnessed through its descriptor. */
    method HoldRoot() returns (ok: bool)
      requires Sound() && created && root.None? && (quiet ==> HomeIs(tree, (parent, name)))
      modifies `entries, `root
      ensures Sound() && (ok ==> root.Some?) && (quiet ==> entries == old(entries))
    {
      hide Own, PathsOk, Missing, Agrees;
      var _ := Interfere();
      var fail := Fails();
      if fail || (parent, name) !in entries || !entries[(parent, name)].dir {
        return false;
      }
      root := Some(entries[(parent, name)].ino);
      fail := Fails();
      ok := !fail;
    }

    ghost predicate HomeIs(t: Tree, home: Key) { home in t.entries && t.entries[home].ino == t.root }

    /** write(relative, ...): the new file is witnessed through its descriptor; copying may stop anywhere. */
    method Write(relative: Path, fits: bool) returns (ok: bool)
      requires Sound() && root.Some?
      modifies `entries, `next, `directories, `files, `lost, `tree
      ensures Sound() && (forall p :: p in old(files) ==> p in files && files[p] == old(files)[p])
      ensures ok ==> relative !in old(files) && files.Keys == old(files).Keys + {relative}
      ensures ok ==> Ino(Init(relative)).Some? && Makes(entries, Ino(Init(relative)).value, Last(relative), files[relative])
    {
      hide Own, Known, Missing;
      if relative == [] || |relative| > MAX_DEPTH || "." in relative || ".." in relative || relative in files || |files| >= MAX_FILES || !fits {
        return false;
      }
      var at := Reach(Init(relative));
      if at.None? || !DirPathOk(Init(relative)) {
        return false;
      }
      ok := MakeFile(relative, at.value);
    }

    method MakeFile(relative: Path, at: nat) returns (ok: bool)
      requires Sound() && root.Some? && relative != [] && DirPathOk(Init(relative)) && relative !in files
      requires quiet ==> IsDir(tree, Init(relative)) && at == InoOf(tree, Init(relative))
      modifies `entries, `next, `directories, `files, `lost, `tree
      ensures Sound() && directories == old(directories) && (forall p :: p in old(files) ==> p in files && files[p] == old(files)[p])
      ensures ok ==> files.Keys == old(files).Keys + {relative} && Makes(entries, at, Last(relative), files[relative])
    {
      RootCreated();
      hide Sound, DirPathOk, InoOf;
      var _ := Disturb();
      var ino := next;
      ok := NewEntry(relative, false, at);
      if !ok {
        return;
      }
      var fail := Fails();
      if fail {
        return false;
      }
      Witness(relative, false, ino);
      var _ := Disturb();
      fail := Fails();
      ok := !fail && (at, Last(relative)) in entries && entries[(at, Last(relative))] == Node(ino, false);
    }

    /** In a quiet run this tree is what is there now. */
    ghost predicate There(t: Tree)
      reads this
    {
      quiet ==> root.Some? && Own(t, base, (parent, name)) && t.entries == entries && t.root == root.value
    }

    /** One recorded entry, if it still is the one recorded. */
    method RemoveOne(p: Path, ino: nat, dir: bool, ghost t: Tree) returns (ok: bool, ghost u: Tree)
      requires root.Some? && PathsOk(directories, files) && (harmed <==> raced) && (quiet ==> !harmed) && p != [] && DirPathOk(Init(p))
      requires There(t) && (quiet ==> (if dir then p in t.dirs else p in t.files) && ino == if dir then t.dirs[p] else t.files[p])
      modifies `entries, `harmed, `raced
      ensures (harmed <==> raced) && (quiet ==> !harmed) && There(u)
      ensures quiet && ok ==> IsDir(t, Init(p)) && u == Remove(t, p, dir)
      ensures quiet && !faulty && Removable(t, p, dir) && Recorded(t, directories) ==> ok
    {
      hide Own, Removable, PathsOk, Recorded, DirPathOk, Takeable, Remove;
      u := t;
      if quiet { OwnParts(t, p, dir, base, (parent, name)); }
      var at := Walk(Init(p), t);
      if at.None? {
        return false, u;
      }
      var _ := Interfere();
      ok := Take(at.value, Last(p), ino, dir);
      if quiet && ok {
        TakenOwn(t, p, dir, base, (parent, name));
        u := Remove(t, p, dir);
        RemoveIs(t, p, dir);
      }
      if quiet && !faulty && Removable(t, p, dir) {
        TakeReady(t, p, dir, base, (parent, name));
      }
    }

    /** Unlink every recorded file. */
    method RemoveFiles(ghost start: Tree) returns (ok: bool, ghost t: Tree)
      requires root.Some? && PathsOk(directories, files) && (harmed <==> raced) && (quiet ==> !harmed)
      requires There(start) && (quiet ==> Agrees(directories, start.dirs) && Agrees(files, start.files))
      modifies `entries, `harmed, `raced
      ensures (harmed <==> raced) && (quiet ==> !harmed) && There(t) && (ok ==> AllSeen(files))
      ensures quiet && ok ==> t.dirs == start.dirs && t.files.Keys == start.files.Keys - files.Keys
      ensures quiet && !faulty && AllSeen(files) && Recorded(start, directories) ==> ok
    {
      hide Own, Removable, DirPathOk, PathsOk, Recorded, Agrees, Left;
      t := start;
      var todo := files.Keys;
      LeftAll(files, start.files);
      while todo != {}
        invariant (harmed <==> raced) && (quiet ==> !harmed) && There(t)
        invariant todo <= files.Keys && forall p :: p in files && p !in todo ==> files[p].Some?
        invariant quiet ==> t.dirs == start.dirs && Left(files, todo, start.files, t.files)
        decreases |todo|
      {
        var p :| p in todo;
        if files[p].None? {
          return false, t;
        }
        FilePathOk(directories, files, p);
        if quiet {
          LeftNext(files, todo, start.files, t.files, p);
          SameRecorded(start, t, directories);
          FileRemovable(t, p);
        }
        ghost var u;
        ok, u := RemoveOne(p, files[p].value, false, t);
        if !ok {
          return false, u;
        }
        t := u;
        todo := todo - {p};
      }
      if quiet { LeftNone(files, start.files, t.files); }
      ok := true;
    }

    /** Remove every recorded directory, the deepest first. */
    method RemoveDirectories(ghost start: Tree) returns (ok: bool, ghost t: Tree)
      requires root.Some? && PathsOk(directories, files) && (harmed <==> raced) && (quiet ==> !harmed)
      requires There(start) && (quiet ==> Agrees(directories, start.dirs))
      modifies `entries, `harmed, `raced
      ensures (harmed <==> raced) && (quiet ==> !harmed) && There(t) && (ok ==> AllSeen(directories))
      ensures quiet && ok ==> t.files == start.files && t.dirs.Keys == start.dirs.Keys - directories.Keys
      ensures quiet && !faulty && start.files == map[] && Recorded(start, directories) && start.dirs.Keys == directories.Keys ==> ok
    {
      hide Own, Removable, DirPathOk, PathsOk, Recorded, Agrees, Left;
      t := start;
      var todo := directories.Keys;
      LeftAll(directories, start.dirs);
      ghost var complete := start.files == map[] && Recorded(start, directories) && start.dirs.Keys == directories.Keys;
      if complete { RecordedSeen(start, directories); }
      while todo != {}
        invariant (harmed <==> raced) && (quiet ==> !harmed) && There(t)
        invariant todo <= directories.Keys && forall p :: p in directories && p !in todo ==> directories[p].Some?
        invariant quiet ==> t.files == start.files && Left(directories, todo, start.dirs, t.dirs)
        decreases |todo|
      {
        ghost var deepest := Deepest(todo);
        var p :| p in todo && forall q :: q in todo ==> |q| <= |p|;
        if directories[p].None? {
          return false, t;
        }
        InitPathOk(directories, files, p);
        if quiet {
          LeftNext(directories, todo, start.dirs, t.dirs, p);
          if complete {
            LeftRecorded(start, t, directories, todo);
            DeepestRemovable(t, p);
          }
        }
        ghost var u;
        ok, u := RemoveOne(p, directories[p].value, true, t);
        if !ok {
          return false, u;
        }
        t := u;
        todo := todo - {p};
      }
      if quiet { LeftNone(directories, start.dirs, t.dirs); }
      ok := true;
    }

    /**
      cleanup(): in a quiet run that stopped anywhere, the parent is as it was before if and only if
      nothing was made or all that was made was recorded and witnessed; in a run that other programs
      disturb, an entry with another inode is removed if and only if they put it between a stat and
      the removal.
    */
    method Cleanup() returns (ok: bool)
      requires Sound()
      modifies `entries, `harmed, `raced
      ensures (harmed <==> raced) && (quiet ==> !harmed)
      ensures quiet && !faulty ==> (entries == base <==> !made || (Witnessed() && !lost))
      ensures quiet && !faulty ==> (ok <==> !created || (Witnessed() && !lost))
      ensures quiet && made && !(created && ok) ==> entries != base
      ensures quiet && made && created && ok ==> entries == base
    {
      hide Own, PathsOk, Known, Missing;
      if quiet && made { KnownIs(); }
      if !created {
        return true;
      }
      if root.None? {
        return false;
      }
      ghost var t := tree;
      ok, t := RemoveFiles(t);
      if !ok {
        if quiet { HomeThere(t, base, (parent, name)); }
        return;
      }
      ok, t := RemoveDirectories(t);
      if !ok {
        if quiet { HomeThere(t, base, (parent, name)); }
        return;
      }
      if quiet {
        Leftovers(t, base, (parent, name));
        NothingMissed(files, tree.files, t.files);
        NothingMissed(directories, tree.dirs, t.dirs);
      }
      var _ := Interfere();
      ok := Take(parent, name, root.value, true);
    }

    /** What the cleanup starts from. */
    lemma KnownIs()
      requires Sound() && quiet && made
      ensures entries != base && tree.entries == entries && Own(tree, base, (parent, name)) && (root.Some? ==> root.value == tree.root)
      ensures Agrees(directories, tree.dirs) && Agrees(files, tree.files)
      ensures Witnessed() && !lost ==> Recorded(tree, directories) && tree.dirs.Keys == directories.Keys && tree.files.Keys == files.Keys
      ensures created && lost ==> directories.Keys != tree.dirs.Keys || files.Keys != tree.files.Keys
    {
      HomeThere(tree, base, (parent, name));
    }
  }

  lemma HomeThere(t: Tree, base: Entries, home: Key)
    requires Own(t, base, home)
    ensures t.entries != base
  {
    assert home in t.entries && home !in base;
  }

  /** With every recorded entry gone: the root can go exactly when nothing else is left, and then all is as before. */
  lemma Leftovers(t: Tree, base: Entries, home: Key)
    requires Own(t, base, home)
    ensures Takeable(t.entries, home.0, home.1, t.root, true) <==> t.dirs == map[] && t.files == map[]
    ensures t.dirs == map[] && t.files == map[] ==> t.entries - {home} == base
    ensures t.entries != base
  {
    HomeThere(t, base, home);
    if t.dirs == map[] && t.files == map[] {
      RootReady(t, base, home);
      AllRemoved(t, base, home);
    } else {
      var p :| p in t.dirs || p in t.files;
      RootNotEmpty(t, p);
    }
  }

  lemma NothingMissed(m: map<Path, Option<nat>>, start: map<Path, nat>, now: map<Path, nat>)
    requires Agrees(m, start) && now.Keys == start.Keys - m.Keys
    ensures now == map[] <==> m.Keys == start.Keys
  {
    if now == map[] {
      assert now.Keys == {};
      forall p | p in start ensures p in m {
        assert p in m || p in now.Keys;
      }
    }
  }

  lemma OwnParts(t: Tree, p: Path, dir: bool, base: Entries, home: Key)
    requires Own(t, base, home) && (if dir then p in t.dirs else p in t.files)
    ensures Placed(t) && Covered(t) && IsDir(t, Init(p))
  {
  }

  /** What was taken is the entry of the path, and a directory was empty. */
  lemma TakenOwn(t: Tree, p: Path, dir: bool, base: Entries, home: Key)
    requires Own(t, base, home) && p != [] && (if dir then p in t.dirs else p in t.files) && IsDir(t, Init(p))
    requires Takeable(t.entries, InoOf(t, Init(p)), Last(p), if dir then t.dirs[p] else t.files[p], dir)
    ensures Own(Remove(t, p, dir), base, home)
  {
    if dir {
      EmptyRemovable(t, p);
    }
    RemoveOwn(t, p, dir, base, home);
  }

  lemma RemoveIs(t: Tree, p: Path, dir: bool)
    requires IsDir(t, Init(p))
    ensures Remove(t, p, dir).entries == t.entries - {(InoOf(t, Init(p)), Last(p))} && Remove(t, p, dir).root == t.root
  {
  }

  lemma FilePathOk(directories: map<Path, Option<nat>>, files: map<Path, Option<nat>>, p: Path)
    requires PathsOk(directories, files) && p in files
    ensures p != [] && DirPathOk(Init(p))
  {
  }

  lemma SameRecorded(t: Tree, u: Tree, directories: map<Path, Option<nat>>)
    requires u.dirs == t.dirs
    ensures Recorded(u, directories) <==> Recorded(t, directories)
  {
  }

  /** What is left of a table while the recorded entries still to do are these. */
  ghost predicate Left(m: map<Path, Option<nat>>, todo: set<Path>, start: map<Path, nat>, now: map<Path, nat>) {
    now.Keys == start.Keys - (m.Keys - todo) && forall p :: p in now ==> now[p] == start[p]
  }

  lemma LeftAll(m: map<Path, Option<nat>>, start: map<Path, nat>)
    ensures Left(m, m.Keys, start, start)
  {
  }

  lemma LeftNext(m: map<Path, Option<nat>>, todo: set<Path>, start: map<Path, nat>, now: map<Path, nat>, p: Path)
    requires Left(m, todo, start, now) && Agrees(m, start) && p in todo && todo <= m.Keys && m[p].Some?
    ensures p in now && now[p] == m[p].value && Left(m, todo - {p}, start, now - {p})
  {
    assert p in m;
    assert (now - {p}).Keys == now.Keys - {p};
    assert start.Keys - (m.Keys - todo) - {p} == start.Keys - (m.Keys - (todo - {p}));
  }

  lemma LeftNone(m: map<Path, Option<nat>>, start: map<Path, nat>, now: map<Path, nat>)
    requires Left(m, {}, start, now)
    ensures now.Keys == start.Keys - m.Keys
  {
    assert m.Keys - {} == m.Keys;
  }

  lemma LeftRecorded(start: Tree, t: Tree, directories: map<Path, Option<nat>>, todo: set<Path>)
    requires Left(directories, todo, start.dirs, t.dirs) && Recorded(start, directories) && start.dirs.Keys == directories.Keys && todo <= directories.Keys
    ensures Recorded(t, directories) && t.dirs.Keys == todo
  {
    assert directories.Keys - (directories.Keys - todo) == todo;
  }

  lemma RecordedSeen(t: Tree, directories: map<Path, Option<nat>>)
    requires Recorded(t, directories) && t.dirs.Keys == directories.Keys
    ensures AllSeen(directories)
  {
    forall p | p in directories ensures directories[p].Some? {
      assert p in t.dirs;
    }
  }

  lemma FileRemovable(t: Tree, p: Path)
    requires p in t.files && p != []
    ensures Removable(t, p, false)
  {
  }

  lemma DeepestRemovable(t: Tree, p: Path)
    requires p in t.dirs && p != [] && t.files == map[] && forall q :: q in t.dirs ==> |q| <= |p|
    ensures Removable(t, p, true)
  {
  }

  lemma InitPathOk(directories: map<Path, Option<nat>>, files: map<Path, Option<nat>>, p: Path)
    requires PathsOk(directories, files) && p in directories
    ensures p != [] && DirPathOk(Init(p))
  {
  }

  lemma Deepest(paths: set<Path>) returns (best: Path)
    requires paths != {}
    ensures best in paths && forall q :: q in paths ==> |q| <= |best|
    decreases |paths|
  {
    best :| best in paths;
    var rest := paths - {best};
    if rest != {} {
      var p := Deepest(rest);
      assert forall q :: q in paths ==> q == best || q in rest;
      if |best| <= |p| {
        best := p;
      }
    } else {
      assert forall q :: q in paths ==> q == best || q in rest;
    }
  }

  /** A removable entry passes the checks of its removal. */
  lemma TakeReady(t: Tree, p: Path, dir: bool, base: Entries, home: Key)
    requires Own(t, base, home) && Removable(t, p, dir)
    ensures IsDir(t, Init(p)) && Takeable(t.entries, InoOf(t, Init(p)), Last(p), if dir then t.dirs[p] else t.files[p], dir)
  {
    hide Apart, Outside;
    assert KeyOf(t, p) in t.entries;
    if dir {
      NothingBelow(t, p);
    }
  }

  /** So does the root, once it is empty. */
  lemma RootReady(t: Tree, base: Entries, home: Key)
    requires Own(t, base, home) && t.dirs == map[] && t.files == map[]
    ensures Takeable(t.entries, home.0, home.1, t.root, true)
  {
    NothingBelow(t, []);
  }

  lemma NewRoot(base: Entries, home: Key, ino: nat)
    requires home !in base && home.0 < ino && forall k :: k in base ==> k.0 < ino
    ensures Own(Tree(base[home := Node(ino, true)], map[], map[], ino, ino + 1), base, home)
  {
  }

  /** The root, and then some writes; any call may fail or be interrupted, and nothing is tried after that. */
  method Stage(task: Task, writes: seq<Path>)
    requires task.Sound() && !task.made && task.root.None? && task.files == map[] && task.directories == map[] && !task.lost
    modifies task`entries, task`next, task`created, task`root, task`lost, task`made, task`tree, task`directories, task`files
    ensures task.Sound()
  {
    hide Task.Sound, Own, PathsOk, Known, Missing, Makes;
    var ok := task.Create();
    for i := 0 to if ok then |writes| else 0
      invariant task.Sound() && (ok ==> task.root.Some?)
    {
      var fits: bool := *;
      var written := task.Write(writes[i], fits);
      if !written {
        break;
      }
    }
  }

  /**
    A whole run of one owner that nobody disturbs: any staging, and then a cleanup whose calls succeed.
    The entries are as before if and only if all that was made was recorded and witnessed.  The
    cleanup reports what is left, except where the interrupt fell between the making of the root and
    the assignment of its flag.
  */
  method StageAndClean(entries: Entries, parent: nat, name: string, next: nat, writes: seq<Path>) returns (ok: bool, task: Task)
    requires parent < next && forall k :: k in entries ==> k.0 < next
    ensures fresh(task) && !task.harmed
    ensures task.entries == entries <==> !task.made || (task.Witnessed() && !task.lost)
    ensures ok <==> task.entries == entries || (task.made && !task.created)
    ensures task.made && !task.created ==> task.lost
  {
    hide Own, PathsOk, Known, Missing, Makes;
    task := new Task(entries, parent, name, next, true, true);
    Stage(task, writes);
    assert task.made && !task.created ==> task.lost by { if task.made && !task.created { LostRoot(task); } }
    task.faulty := false;
    ok := task.Cleanup();
  }

  lemma LostRoot(task: Task)
    requires task.Sound() && task.quiet && task.made && !task.created
    ensures task.lost
  {
  }
}
