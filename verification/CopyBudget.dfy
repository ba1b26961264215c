/**
  Incremental budgets against full rescans: `private_usage` and the charges of `copy_source_tree` in
  nix/home_manager_acquisition.py, and `ReconstructionBudget` in nix/home_manager_bundle.py.

  A private tree is scanned recursively.  While a source tree is copied into one empty directory of
  it, node, path and byte charges are added up instead, and each inode's blocks are charged from what
  fstat happens to show: any sequence of counts, rising or falling.  Files are charged once more when
  their flush finishes, at any later moment.
*/
module CopyBudget {

  import opened Basics

  const DISK_BUDGET: nat := 8 * 1024 * 1024 * 1024
  const MAX_NODES: nat := 600000
  const MAX_METADATA: nat := 128 * 1024 * 1024
  const MAX_DEPTH: nat := 64
  const MAX_PATH: nat := 4096
  const MAX_FILE: nat := 512 * 1024 * 1024
  const MAX_TREE: nat := 2 * 1024 * 1024 * 1024

  // ----- The full scan -----

  datatype Tree = Dir(blocks: nat, children: seq<(string, Tree)>) | File(size: nat, blocks: nat) | Link(blocks: nat)

  datatype Totals = Totals(nodes: nat, metadata: nat, logical: nat, space: nat) {
    function Plus(o: Totals): Totals {
      Totals(nodes + o.nodes, metadata + o.metadata, logical + o.logical, space + o.space)
    }
  }

  const NOTHING: Totals := Totals(0, 0, 0, 0)

  function Child(relative: string, name: string): string { if relative == "" then name else relative + "/" + name }

  /** One more discovered path. */
  function Found(path: string): Totals { Totals(1, |path| + 128, 0, 0) }

  /** The names of the first n children. */
  function Names(dir: Tree, n: nat, relative: string): Totals
    requires dir.Dir? && n <= |dir.children|
  {
    if n == 0 then NOTHING else Names(dir, n - 1, relative).Plus(Found(Child(relative, dir.children[n - 1].0)))
  }

  function Scan(t: Tree, relative: string): Totals
    decreases t, 1, 0
  {
    match t
    case Dir(blocks, children) =>
      Totals(0, 0, 0, 512 * blocks).Plus(Names(t, |children|, relative)).Plus(Below(t, |children|, relative))
    case File(size, blocks) => Totals(0, 0, size, 512 * blocks)
    case Link(blocks) => Totals(0, 0, 0, 512 * blocks)
  }

  /** What is in the first n children. */
  function Below(dir: Tree, n: nat, relative: string): Totals
    requires dir.Dir? && n <= |dir.children|
    decreases dir, 0, n
  {
    if n == 0 then NOTHING
    else Below(dir, n - 1, relative).Plus(Scan(dir.children[n - 1].1, Child(relative, dir.children[n - 1].0)))
  }

  /** What private_usage counts: the root, and everything below it. */
  function Usage(root: Tree): Totals { Totals(1, 128, 0, 0).Plus(Scan(root, "")) }

  /** Paths and files within the limits that a scan enforces besides the budget. */
  predicate Shallow(t: Tree, relative: string, depth: nat)
    decreases t
  {
    match t
    case Dir(_, children) =>
      depth <= MAX_DEPTH && forall i :: 0 <= i < |children| ==>
        |Child(relative, children[i].0)| <= MAX_PATH && depth + 1 <= MAX_DEPTH && Shallow(children[i].1, Child(relative, children[i].0), depth + 1)
    case File(size, _) => size <= MAX_FILE
    case Link(_) => true
  }

  predicate Within(t: Totals) {
    t.logical <= DISK_BUDGET && t.space <= DISK_BUDGET && t.nodes <= MAX_NODES && t.metadata <= MAX_METADATA
  }

  // ----- private_usage -----

  /** The names are short and not too deep. */
  predicate NamesFit(dir: Tree, n: nat, relative: string, depth: nat)
    requires dir.Dir? && n <= |dir.children|
  {
    forall i :: 0 <= i < n ==> |Child(relative, dir.children[i].0)| <= MAX_PATH && depth + 1 <= MAX_DEPTH
  }

  predicate Counted(t: Totals) { t.nodes <= MAX_NODES && t.metadata <= MAX_METADATA }

  lemma ShallowDir(dir: Tree, relative: string, depth: nat)
    requires dir.Dir? && depth <= MAX_DEPTH && NamesFit(dir, |dir.children|, relative, depth)
    requires forall j :: 0 <= j < |dir.children| ==> Shallow(dir.children[j].1, Child(relative, dir.children[j].0), depth + 1)
    ensures Shallow(dir, relative, depth)
  {
  }

  class Usages {
    var t: Totals

    constructor ()
      ensures t == Totals(1, 128, 0, 0)
    {
      t := Totals(1, 128, 0, 0);
    }

    /** The first loop: every name is counted before anything below is looked at. */
    method Discover(dir: Tree, relative: string, depth: nat) returns (ok: bool)
      requires dir.Dir?
      modifies this
      ensures ok ==> t == old(t).Plus(Names(dir, |dir.children|, relative)) && NamesFit(dir, |dir.children|, relative, depth)
      ensures ok && Counted(old(t)) ==> Counted(t)
      ensures !ok ==> !Shallow(dir, relative, depth) || !Within(old(t).Plus(Names(dir, |dir.children|, relative)))
    {
      hide Child, Scan, Below;
      for i := 0 to |dir.children|
        invariant t == old(t).Plus(Names(dir, i, relative)) && NamesFit(dir, i, relative, depth) && (Counted(old(t)) ==> Counted(t))
      {
        var path := Child(relative, dir.children[i].0);
        NamesGrow(dir, i + 1, |dir.children|, relative);
        if |path| > MAX_PATH || depth + 1 > MAX_DEPTH {
          return false;
        }
        if t.nodes + 1 > MAX_NODES || t.metadata + |path| + 128 > MAX_METADATA {
          return false;
        }
        t := t.Plus(Found(path));
      }
      return true;
    }

    /** visit(): a refusal means that a limit or the budget is exceeded by the whole scan. */
    method Visit(dir: Tree, relative: string, depth: nat) returns (ok: bool)
      requires dir.Dir?
      modifies this
      ensures ok ==> t == old(t).Plus(Scan(dir, relative)) && Shallow(dir, relative, depth) && (Counted(old(t)) ==> Counted(t))
      ensures !ok ==> !Shallow(dir, relative, depth) || !Within(old(t).Plus(Scan(dir, relative)))
      decreases dir, 0, 1
    {
      hide Within, Shallow, Scan, Child, Names, Below, NamesFit;
      ScanDir(dir, relative);
      ghost var whole := t.Plus(Scan(dir, relative));
      t := t.(space := t.space + 512 * dir.blocks);
      if depth > MAX_DEPTH {
        TooDeep(dir, relative, depth);
        return false;
      }
      ghost var counted := t.Plus(Names(dir, |dir.children|, relative));
      ok := Discover(dir, relative, depth);
      if !ok {
        Exceeds(counted, whole);
        return;
      }
      ok := VisitChildren(dir, relative, depth);
      if ok {
        ShallowDir(dir, relative, depth);
      }
    }

    /** The second loop: everything below is looked at, child by child. */
    method VisitChildren(dir: Tree, relative: string, depth: nat) returns (ok: bool)
      requires dir.Dir?
      modifies this
      ensures ok ==> t == old(t).Plus(Below(dir, |dir.children|, relative)) && (Counted(old(t)) ==> Counted(t))
      ensures ok ==> forall j :: 0 <= j < |dir.children| ==> Shallow(dir.children[j].1, Child(relative, dir.children[j].0), depth + 1)
      ensures !ok ==> !Shallow(dir, relative, depth) || !Within(old(t).Plus(Below(dir, |dir.children|, relative)))
      decreases dir, 0, 0
    {
      hide Within, Shallow, Scan, Child, Below, Counted;
      BelowNone(dir, relative);
      for i := 0 to |dir.children|
        invariant Counted(old(t)) ==> Counted(t)
        invariant forall j :: 0 <= j < i ==> Shallow(dir.children[j].1, Child(relative, dir.children[j].0), depth + 1)
        invariant t == old(t).Plus(Below(dir, i, relative))
      {
        var (name, tree) := dir.children[i];
        var path := Child(relative, name);
        BelowNext(dir, i, relative);
        BelowGrow(dir, i + 1, |dir.children|, relative);
        Exceeds(t.Plus(Scan(tree, path)), old(t).Plus(Below(dir, |dir.children|, relative)));
        ShallowChild(dir, relative, depth, i);
        ok := VisitChild(tree, path, depth + 1);
        if !ok {
          return;
        }
      }
      return true;
    }

    /** One child: descend, or count it; and compare with the budget. */
    method VisitChild(tree: Tree, path: string, depth: nat) returns (ok: bool)
      modifies this
      ensures ok ==> t == old(t).Plus(Scan(tree, path)) && Shallow(tree, path, depth) && (Counted(old(t)) ==> Counted(t))
      ensures !ok ==> !Shallow(tree, path, depth) || !Within(old(t).Plus(Scan(tree, path)))
      decreases tree, 1, 0
    {
      hide Within, Shallow, Scan;
      Leaf(tree, path);
      match tree {
        case Dir(_, _) =>
          ok := Visit(tree, path, depth);
          if !ok {
            return;
          }
        case File(size, blocks) =>
          t := t.Plus(Totals(0, 0, size, 512 * blocks));
          if size > MAX_FILE {
            return false;
          }
        case Link(blocks) =>
          t := t.Plus(Totals(0, 0, 0, 512 * blocks));
      }
      if t.logical > DISK_BUDGET || t.space > DISK_BUDGET {
        TooMuch(t);
        return false;
      }
      return true;
    }
  }

  /** private_usage: the plain totals, refused exactly when a limit or the budget is exceeded. */
  method PrivateUsage(root: Tree) returns (r: Option<Totals>)
    requires root.Dir?
    ensures r == if Shallow(root, "", 0) && Within(Usage(root)) then Some(Usage(root)) else None
  {
    var u := new Usages();
    var ok := u.Visit(root, "", 0);
    if !ok || u.t.logical > DISK_BUDGET || u.t.space > DISK_BUDGET {
      return None;
    }
    return Some(u.t);
  }

  lemma ScanDir(dir: Tree, relative: string)
    requires dir.Dir?
    ensures Scan(dir, relative) == Totals(0, 0, 0, 512 * dir.blocks).Plus(Names(dir, |dir.children|, relative)).Plus(Below(dir, |dir.children|, relative))
  {
  }

  lemma BelowNext(dir: Tree, i: nat, relative: string)
    requires dir.Dir? && i < |dir.children|
    ensures Below(dir, i + 1, relative) == Below(dir, i, relative).Plus(Scan(dir.children[i].1, Child(relative, dir.children[i].0)))
  {
  }

  lemma BelowNone(dir: Tree, relative: string)
    requires dir.Dir?
    ensures Below(dir, 0, relative) == NOTHING
  {
  }

  lemma Leaf(t: Tree, relative: string)
    ensures t.File? ==> Scan(t, relative) == Totals(0, 0, t.size, 512 * t.blocks) && (t.size > MAX_FILE ==> forall d :: !Shallow(t, relative, d))
    ensures t.Link? ==> Scan(t, relative) == Totals(0, 0, 0, 512 * t.blocks)
    ensures t.Link? || (t.File? && t.size <= MAX_FILE) ==> forall d :: Shallow(t, relative, d)
  {
  }

  lemma TooDeep(dir: Tree, relative: string, depth: nat)
    requires dir.Dir? && depth > MAX_DEPTH
    ensures !Shallow(dir, relative, depth)
  {
  }

  lemma TooMuch(t: Totals)
    requires t.logical > DISK_BUDGET || t.space > DISK_BUDGET
    ensures !Within(t)
  {
  }

  lemma ShallowChild(dir: Tree, relative: string, depth: nat, i: nat)
    requires dir.Dir? && i < |dir.children|
    ensures Shallow(dir, relative, depth) ==> Shallow(dir.children[i].1, Child(relative, dir.children[i].0), depth + 1)
  {
  }

  lemma Exceeds(a: Totals, b: Totals)
    requires AtMost(a, b)
    ensures !Within(a) ==> !Within(b)
  {
  }

  predicate AtMost(a: Totals, b: Totals) {
    a.nodes <= b.nodes && a.metadata <= b.metadata && a.logical <= b.logical && a.space <= b.space
  }

  lemma {:induction false} NamesGrow(dir: Tree, m: nat, n: nat, relative: string)
    requires dir.Dir? && m <= n <= |dir.children|
    ensures AtMost(Names(dir, m, relative), Names(dir, n, relative))
    decreases n
  {
    if m < n {
      NamesGrow(dir, m, n - 1, relative);
    }
  }

  lemma {:induction false} BelowGrow(dir: Tree, m: nat, n: nat, relative: string)
    requires dir.Dir? && m <= n <= |dir.children|
    ensures AtMost(Below(dir, m, relative), Below(dir, n, relative))
    decreases n
  {
    if m < n {
      BelowGrow(dir, m, n - 1, relative);
    }
  }

  // ----- Replacing one directory of a scanned tree -----

  predicate Located(t: Tree, loc: seq<nat>)
    decreases t
  {
    loc == [] || (t.Dir? && loc[0] < |t.children| && Located(t.children[loc[0]].1, loc[1..]))
  }

  function At(t: Tree, loc: seq<nat>): Tree
    requires Located(t, loc)
    decreases t
  {
    if loc == [] then t else At(t.children[loc[0]].1, loc[1..])
  }

  function PathAt(t: Tree, loc: seq<nat>, relative: string): string
    requires Located(t, loc)
    decreases t
  {
    if loc == [] then relative else PathAt(t.children[loc[0]].1, loc[1..], Child(relative, t.children[loc[0]].0))
  }

  function Put(dir: Tree, k: nat, u: Tree): Tree
    requires dir.Dir? && k < |dir.children|
  {
    Dir(dir.blocks, dir.children[k := (dir.children[k].0, u)])
  }

  function Replace(t: Tree, loc: seq<nat>, u: Tree): Tree
    requires Located(t, loc)
    decreases t
  {
    if loc == [] then u else Put(t, loc[0], Replace(t.children[loc[0]].1, loc[1..], u))
  }

  lemma {:induction false} PutNames(dir: Tree, k: nat, u: Tree, n: nat, relative: string)
    requires dir.Dir? && k < |dir.children| && n <= |dir.children|
    ensures Names(Put(dir, k, u), n, relative) == Names(dir, n, relative)
  {
    hide Child;
    if n > 0 {
      PutNames(dir, k, u, n - 1, relative);
    }
  }

  lemma {:induction false} PutBelow(dir: Tree, k: nat, u: Tree, n: nat, relative: string)
    requires dir.Dir? && k < |dir.children| && n <= |dir.children|
    ensures var path := Child(relative, dir.children[k].0);
            if n <= k then Below(Put(dir, k, u), n, relative) == Below(dir, n, relative)
            else Below(Put(dir, k, u), n, relative).Plus(Scan(dir.children[k].1, path)) == Below(dir, n, relative).Plus(Scan(u, path))
  {
    hide Child, Scan, Below;
    BelowNone(dir, relative);
    BelowNone(Put(dir, k, u), relative);
    if n > 0 {
      PutBelow(dir, k, u, n - 1, relative);
      BelowNext(dir, n - 1, relative);
      BelowNext(Put(dir, k, u), n - 1, relative);
    }
  }

  lemma PutScan(dir: Tree, k: nat, u: Tree, relative: string)
    requires dir.Dir? && k < |dir.children|
    ensures var path := Child(relative, dir.children[k].0);
            Scan(Put(dir, k, u), relative).Plus(Scan(dir.children[k].1, path)) == Scan(dir, relative).Plus(Scan(u, path))
  {
    hide Child, Names, Below;
    PutNames(dir, k, u, |dir.children|, relative);
    PutBelow(dir, k, u, |dir.children|, relative);
    ScanDir(dir, relative);
    ScanDir(Put(dir, k, u), relative);
    hide Scan;
  }

  /** A scan counts the replaced directory for what it now is, and everything else as before. */
  lemma {:induction false} ReplaceScan(t: Tree, loc: seq<nat>, u: Tree, relative: string)
    requires Located(t, loc)
    ensures var path := PathAt(t, loc, relative);
            Scan(Replace(t, loc, u), relative).Plus(Scan(At(t, loc), path)) == Scan(t, relative).Plus(Scan(u, path))
    decreases t
  {
    hide Scan, Child;
    if loc != [] {
      var (name, child) := t.children[loc[0]];
      ReplaceScan(child, loc[1..], u, Child(relative, name));
      PutScan(t, loc[0], Replace(child, loc[1..], u), relative);
    }
  }

  // ----- What is copied -----

  datatype Source = SDir(children: seq<(string, Source)>) | SFile(size: nat) | SLink

  /** A copied node: its inode is a place in the list of block counts. */
  datatype Copied = CDir(ino: nat, kids: seq<(string, Copied)>) | CFile(size: nat, ino: nat) | CLink(ino: nat)

  function Blocks(blocks: seq<nat>, ino: nat): nat { if ino < |blocks| then blocks[ino] else 0 }

  function Real(c: Copied, blocks: seq<nat>): Tree
    decreases c
  {
    match c
    case CDir(ino, kids) => Dir(Blocks(blocks, ino), seq(|kids|, i requires 0 <= i < |kids| => (kids[i].0, Real(kids[i].1, blocks))))
    case CFile(size, ino) => File(size, Blocks(blocks, ino))
    case CLink(ino) => Link(Blocks(blocks, ino))
  }

  function Inodes(c: Copied): seq<nat>
    decreases c, 1, 0
  {
    match c
    case CDir(ino, kids) => [ino] + InodesFirst(c, |kids|)
    case CFile(_, ino) => [ino]
    case CLink(ino) => [ino]
  }

  function InodesFirst(c: Copied, n: nat): seq<nat>
    requires c.CDir? && n <= |c.kids|
    decreases c, 0, n
  {
    if n == 0 then [] else InodesFirst(c, n - 1) + Inodes(c.kids[n - 1].1)
  }

  function SumAt(inodes: seq<nat>, blocks: seq<nat>): nat {
    if inodes == [] then 0 else SumAt(inodes[..|inodes| - 1], blocks) + Blocks(blocks, inodes[|inodes| - 1])
  }

  lemma {:induction false} SumAtAppend(a: seq<nat>, b: seq<nat>, blocks: seq<nat>)
    ensures SumAt(a + b, blocks) == SumAt(a, blocks) + SumAt(b, blocks)
  {
    if b == [] {
      assert a + b == a;
    } else {
      SumAtAppend(a, b[..|b| - 1], blocks);
      assert (a + b)[..|a + b| - 1] == a + b[..|b| - 1];
    }
  }

  function Spaced(t: Totals, n: nat): Totals { t.(space := t.space + 512 * n) }

  /** Block counts enter a scan only as their sum over the inodes of the tree. */
  lemma {:induction false} ScanReal(c: Copied, blocks: seq<nat>, relative: string)
    ensures Scan(Real(c, blocks), relative) == Spaced(Scan(Real(c, []), relative), SumAt(Inodes(c), blocks))
    decreases c, 1, 0
  {
    if c.CDir? {
      ScanRealFirst(c, |c.kids|, blocks, relative);
      NamesReal(c, |c.kids|, blocks, relative);
      SumAtAppend([c.ino], InodesFirst(c, |c.kids|), blocks);
    }
    assert [c.ino][..0] == [];
  }

  lemma RealKids(c: Copied, blocks: seq<nat>)
    requires c.CDir?
    ensures Real(c, blocks).Dir? && |Real(c, blocks).children| == |c.kids|
    ensures forall i :: 0 <= i < |c.kids| ==> Real(c, blocks).children[i] == (c.kids[i].0, Real(c.kids[i].1, blocks))
  {
  }

  lemma SumAtNone(blocks: seq<nat>)
    ensures SumAt([], blocks) == 0
  {
  }

  lemma {:induction false} NamesReal(c: Copied, n: nat, blocks: seq<nat>, relative: string)
    requires c.CDir? && n <= |c.kids|
    ensures Names(Real(c, blocks), n, relative) == Names(Real(c, []), n, relative)
  {
    hide Child;
    if n > 0 {
      NamesReal(c, n - 1, blocks, relative);
    }
  }

  lemma {:induction false} ScanRealFirst(c: Copied, n: nat, blocks: seq<nat>, relative: string)
    requires c.CDir? && n <= |c.kids|
    ensures Below(Real(c, blocks), n, relative) == Spaced(Below(Real(c, []), n, relative), SumAt(InodesFirst(c, n), blocks))
    decreases c, 0, n
  {
    hide Child, Scan, Below, Real, Inodes, SumAt;
    RealKids(c, blocks);
    RealKids(c, []);
    if n == 0 {
      BelowNone(Real(c, blocks), relative);
      BelowNone(Real(c, []), relative);
      assert SumAt([], blocks) == 0 by { SumAtNone(blocks); }
    } else {
      var kid := c.kids[n - 1];
      ScanRealFirst(c, n - 1, blocks, relative);
      ScanReal(kid.1, blocks, Child(relative, kid.0));
      SumAtAppend(InodesFirst(c, n - 1), Inodes(kid.1), blocks);
      BelowNext(Real(c, blocks), n - 1, relative);
      BelowNext(Real(c, []), n - 1, relative);
    }
  }

  // ----- One more child -----

  lemma {:induction false} KidsPrefix(id: nat, kids: seq<(string, Copied)>, k: (string, Copied), n: nat, at: string)
    requires n <= |kids|
    ensures var c, d := CDir(id, kids), CDir(id, kids + [k]);
            && Names(Real(d, []), n, at) == Names(Real(c, []), n, at) && Below(Real(d, []), n, at) == Below(Real(c, []), n, at)
            && InodesFirst(d, n) == InodesFirst(c, n)
  {
    var c, d := CDir(id, kids), CDir(id, kids + [k]);
    hide Child, Scan, Real, Inodes;
    RealKids(c, []);
    RealKids(d, []);
    if n > 0 {
      KidsPrefix(id, kids, k, n - 1, at);
      assert d.kids[n - 1] == c.kids[n - 1];
    }
  }

  lemma NamesNext(dir: Tree, i: nat, relative: string)
    requires dir.Dir? && i < |dir.children|
    ensures Names(dir, i + 1, relative) == Names(dir, i, relative).Plus(Found(Child(relative, dir.children[i].0)))
  {
  }

  lemma MoreTotals(own: Totals, names: Totals, below: Totals, found: Totals, child: Totals)
    requires own == NOTHING
    ensures own.Plus(names.Plus(found)).Plus(below.Plus(child)) == own.Plus(names).Plus(below).Plus(found).Plus(child)
  {
  }

  lemma KidsMoreInodes(id: nat, kids: seq<(string, Copied)>, name: string, x: Copied)
    ensures InodesFirst(CDir(id, kids + [(name, x)]), |kids| + 1) == InodesFirst(CDir(id, kids), |kids|) + Inodes(x)
  {
    hide Inodes;
    KidsPrefix(id, kids, (name, x), |kids|, "");
    assert (kids + [(name, x)])[|kids|] == (name, x);
  }

  lemma KidsMore(id: nat, kids: seq<(string, Copied)>, name: string, x: Copied, at: string)
    ensures Scan(Real(CDir(id, kids + [(name, x)]), []), at)
            == Scan(Real(CDir(id, kids), []), at).Plus(Found(Child(at, name))).Plus(Scan(Real(x, []), Child(at, name)))
  {
    hide Real, Child, Scan, Names, Below, Inodes, InodesFirst, Found, Totals.Plus;
    var n, c, d := |kids|, Real(CDir(id, kids), []), Real(CDir(id, kids + [(name, x)]), []);
    assert (kids + [(name, x)])[n] == (name, x);
    KidsPrefix(id, kids, (name, x), n, at);
    RealKids(CDir(id, kids), []);
    RealKids(CDir(id, kids + [(name, x)]), []);
    RealOwn(CDir(id, kids));
    RealOwn(CDir(id, kids + [(name, x)]));
    ScanDir(c, at);
    ScanDir(d, at);
    NamesNext(d, n, at);
    BelowNext(d, n, at);
    MoreTotals(Totals(0, 0, 0, 0), Names(c, n, at), Below(c, n, at), Found(Child(at, name)), Scan(Real(x, []), Child(at, name)));
  }

  lemma RealOwn(c: Copied)
    requires c.CDir?
    ensures Real(c, []).Dir? && Real(c, []).blocks == 0
  {
  }

  function Range(lo: nat, hi: nat): (r: seq<nat>)
    requires lo <= hi
    ensures |r| == hi - lo && forall i :: 0 <= i < hi - lo ==> r[i] == lo + i
  {
    seq(hi - lo, i => lo + i)
  }

  lemma RangeJoin(a: nat, b: nat, c: nat)
    requires a <= b <= c
    ensures Range(a, b) + Range(b, c) == Range(a, c)
  {
  }

  /** All block counts together. */
  function Sum(blocks: seq<nat>): nat { SumAt(Range(0, |blocks|), blocks) }

  lemma {:induction false} SumAtSet(inodes: seq<nat>, blocks: seq<nat>, i: nat, v: nat)
    requires i < |blocks| && forall j, k :: 0 <= j < k < |inodes| ==> inodes[j] != inodes[k]
    ensures SumAt(inodes, blocks[i := v]) == SumAt(inodes, blocks) + if i in inodes then v - blocks[i] else 0
  {
    if inodes != [] {
      var init := inodes[..|inodes| - 1];
      SumAtSet(init, blocks, i, v);
      assert inodes == init + [inodes[|inodes| - 1]];
      if inodes[|inodes| - 1] == i {
        assert i !in init;
      }
    }
  }

  lemma SumSet(blocks: seq<nat>, i: nat, v: nat)
    requires i < |blocks|
    ensures Sum(blocks[i := v]) == Sum(blocks) + v - blocks[i]
  {
    SumAtSet(Range(0, |blocks|), blocks, i, v);
    assert Range(0, |blocks|)[i] == i;
  }

  lemma {:induction false} SumAtSame(inodes: seq<nat>, a: seq<nat>, b: seq<nat>)
    requires forall i :: i in inodes ==> Blocks(a, i) == Blocks(b, i)
    ensures SumAt(inodes, a) == SumAt(inodes, b)
  {
    if inodes != [] {
      SumAtSame(inodes[..|inodes| - 1], a, b);
    }
  }

  lemma SumMore(blocks: seq<nat>)
    ensures Sum(blocks + [0]) == Sum(blocks)
  {
    var r := Range(0, |blocks| + 1);
    assert r[..|r| - 1] == Range(0, |blocks|);
    SumAtSame(Range(0, |blocks|), blocks, blocks + [0]);
  }

  // ----- The account of one inode -----

  /** What is charged for one inode while these counts are seen. */
  function Charge(previous: nat, seen: seq<nat>): nat {
    if seen == [] then 0
    else
      var init, last := seen[..|seen| - 1], seen[|seen| - 1];
      Charge(previous, init) + if last > LastSeen(previous, init) then last - LastSeen(previous, init) else 0
  }

  function LastSeen(previous: nat, seen: seq<nat>): nat { if seen == [] then previous else seen[|seen| - 1] }

  /** By how much the counts fell in all; that is never given back. */
  function Falls(previous: nat, seen: seq<nat>): nat {
    if seen == [] then 0
    else
      var init, last := seen[..|seen| - 1], seen[|seen| - 1];
      Falls(previous, init) + if last < LastSeen(previous, init) then LastSeen(previous, init) - last else 0
  }

  lemma {:induction false} ChargeBalance(previous: nat, seen: seq<nat>)
    ensures previous + Charge(previous, seen) == LastSeen(previous, seen) + Falls(previous, seen)
  {
    if seen != [] {
      ChargeBalance(previous, seen[..|seen| - 1]);
    }
  }

  lemma ChargeMore(previous: nat, seen: seq<nat>, count: nat)
    ensures LastSeen(previous, seen + [count]) == count
    ensures Charge(previous, seen + [count]) == Charge(previous, seen) + if count > LastSeen(previous, seen) then count - LastSeen(previous, seen) else 0
  {
    assert (seen + [count])[..|seen|] == seen;
  }

  // ----- The copy -----

  predicate WellNamed(s: Source)
    decreases s
  {
    s.SDir? ==> forall i :: 0 <= i < |s.children| ==> s.children[i].0 != "" && WellNamed(s.children[i].1)
  }

  /** The true path is no longer than what is charged for it. */
  predicate Covers(prefixBytes: nat, relative: string, at: string) {
    at != "" && |at| <= prefixBytes + if relative == "" then 0 else 1 + |relative|
  }

  class Copier {
    const prefixBytes: nat
    /** The budget dictionary. */
    var t: Totals
    /** The last block count seen of each inode, the files whose flush is pending, the bytes copied. */
    var last: seq<nat>
    var pending: seq<nat>
    var copied: nat
    ghost var base: nat
    ghost var first: nat
    ghost var charged: seq<nat>
    /** All counts seen of each inode; of the destination those after the first look. */
    ghost var seen: seq<seq<nat>>

    /** What the charges of an inode start from: the destination's from the first look at it. */
    ghost function From(i: nat): nat
      reads this
    {
      if i == 0 then first else 0
    }

    ghost predicate Sound()
      reads this
    {
      && |last| == |charged| == |seen| > 0 && t.space == base + 512 * Sum(charged)
      && (forall i :: 0 <= i < |last| ==> charged[i] == Charge(From(i), seen[i]) && last[i] == LastSeen(From(i), seen[i]))
      && (forall p :: p in pending ==> 0 < p < |last|)
    }

    constructor (prefixBytes: nat, t: Totals, first: nat)
      ensures Sound() && this.prefixBytes == prefixBytes && this.t == t && base == t.space && this.first == first
      ensures |last| == 1 && pending == []
    {
      this.prefixBytes, this.t, this.first, base := prefixBytes, t, first, t.space;
      last, charged, seen, pending, copied := [first], [0], [[]], [], 0;
      new;
      assert Range(0, 1)[..0] == [] && Range(0, 1) == [0];
    }

    lemma Started()
      requires Sound()
      ensures |last| > 0
    {
    }

    /** A new inode, not yet looked at. */
    method NewInode() returns (id: nat)
      requires Sound()
      modifies `last, `charged, `seen
      ensures Sound() && id == |old(last)| && last == old(last) + [0]
    {
      id := |last|;
      SumMore(charged);
      last, charged, seen := last + [0], charged + [0], seen + [[]];
    }

    /** charge_blocks(): whatever fstat shows now, the rise since the last look is charged. */
    method ChargeBlocks(id: nat) returns (ok: bool)
      requires Sound() && id < |last|
      modifies `t, `last, `charged, `seen
      ensures Sound() && |last| == |old(last)| && t == old(t).(space := t.space)
      ensures ok ==> Within(t)
    {
      hide Charge, LastSeen;
      var current: nat := *;
      var rise := if current > last[id] then current - last[id] else 0;
      SumSet(charged, id, charged[id] + rise);
      ChargeMore(From(id), seen[id], current);
      seen := seen[id := seen[id] + [current]];
      t := t.(space := t.space + 512 * rise);
      charged := charged[id := charged[id] + rise];
      last := last[id := current];
      ok := Within(t);
    }

    /** Pending flushes finish, oldest first, as many as happen to. */
    method Finish(all: bool) returns (ok: bool)
      requires Sound()
      modifies `t, `last, `charged, `seen, `pending
      ensures Sound() && |last| == |old(last)| && t == old(t).(space := t.space)
      ensures ok && all ==> pending == []
      ensures ok && old(Within(t)) ==> Within(t)
    {
      ok := true;
      var more := true;
      while pending != [] && more
        invariant Sound() && |last| == |old(last)| && t == old(t).(space := t.space) && (all ==> more)
        invariant old(Within(t)) ==> Within(t)
        decreases |pending|, more
      {
        more := *;
        more := more || all;
        if more {
          var id := pending[0];
          assert id in pending && forall p :: p in pending[1..] ==> p in pending;
          pending := pending[1..];
          ok := ChargeBlocks(id);
          if !ok {
            return;
          }
        }
      }
    }

    method Reserve(path: string) returns (ok: bool)
      requires Sound()
      modifies `t
      ensures Sound() && t == old(t).(nodes := old(t).nodes + 1, metadata := old(t).metadata + prefixBytes + 1 + |path| + 128)
      ensures ok <==> Within(t)
    {
      t := t.(nodes := t.nodes + 1, metadata := t.metadata + prefixBytes + 1 + |path| + 128);
      ok := Within(t);
    }

    /** One file: charged when made, for every write, and after its mode is set; then its flush is pending. */
    method CopyFile(size: nat) returns (ok: bool, id: nat)
      requires Sound()
      modifies `t, `last, `charged, `seen, `pending, `copied
      ensures Sound() && |last| == |old(last)| + 1 && id == |old(last)|
      ensures ok ==> t == old(t).(logical := old(t).logical + size, space := t.space) && Within(t)
    {
      hide Copier.Sound, Within;
      assert |last| > 0 by { Started(); }
      id := NewInode();
      ghost var n := |last|;
      ok := ChargeBlocks(id);
      if !ok {
        return;
      }
      var done := 0;
      while done <= size
        invariant Sound() && |last| == n && done <= size && Within(t)
        invariant t == old(t).(logical := old(t).logical + done, space := t.space)
        decreases size + 1 - done
      {
        ok := Finish(false);
        if !ok {
          return;
        }
        var content: nat := *;
        content := if size + 1 - done < 1024 * 1024 then content % (size + 2 - done) else content % (1024 * 1024 + 1);
        if content == 0 {
          break;
        }
        if done + content > size || copied + content > MAX_TREE {
          return false, id;
        }
        done := done + content;
        ok := Count(content);
        if !ok {
          return;
        }
        ok := WriteAll(id, content);
        if !ok {
          return;
        }
      }
      if done != size {
        return false, id;
      }
      ok := ChargeBlocks(id);
      if ok {
        Flush(id);
      }
    }

    /** Bytes that have been read are counted before they are written. */
    method Count(content: nat) returns (ok: bool)
      requires Sound()
      modifies `t, `copied
      ensures Sound() && t == old(t).(logical := old(t).logical + content) && copied == old(copied) + content
      ensures ok <==> Within(t)
    {
      copied, t := copied + content, t.(logical := t.logical + content);
      ok := Within(t);
    }

    method Flush(id: nat)
      requires Sound() && 0 < id < |last|
      modifies `pending
      ensures Sound() && pending == old(pending) + [id]
    {
      pending := pending + [id];
    }

    method WriteAll(id: nat, content: nat) returns (ok: bool)
      requires Sound() && id < |last| && Within(t)
      modifies `t, `last, `charged, `seen
      ensures Sound() && |last| == |old(last)| && t == old(t).(space := t.space) && (ok ==> Within(t))
    {
      hide Within;
      ok := true;
      var remaining := content;
      while remaining > 0
        invariant Sound() && |last| == |old(last)| && t == old(t).(space := t.space) && Within(t)
      {
        var written: nat := *;
        written := 1 + written % remaining;
        remaining := remaining - written;
        ok := ChargeBlocks(id);
        if !ok {
          return;
        }
      }
    }

    /** visit(): the children in turn; the directory itself is looked at again after each. */
    method Visit(src: Source, relative: string, id: nat, isNew: bool, depth: nat, ghost at: string)
      returns (ok: bool, kids: seq<(string, Copied)>)
      requires Sound() && src.SDir? && WellNamed(src) && id < |last| && Covers(prefixBytes, relative, at) && Within(t)
      modifies `t, `last, `charged, `seen, `pending, `copied
      ensures Sound() && |last| >= |old(last)|
      ensures ok ==> InodesFirst(CDir(id, kids), |kids|) == Range(|old(last)|, |last|)
      ensures ok ==> Charged(old(t), t, Scan(Real(CDir(id, kids), []), at)) && Within(t)
      ensures ok ==> MirrorsFirst(src, kids, |src.children|)
      decreases src, 0
    {
      hide Copier.Sound, Within, Scan, Real, Inodes, InodesFirst, Covers, Mirrors, MirrorsFirst, Range, Child, Found;
      kids := [];
      NoKids(CDir(id, kids), at);
      MirrorsNone(src);
      ok := Finish(false);
      if !ok || depth > MAX_DEPTH {
        return false, [];
      }
      if isNew {
        ok := ChargeBlocks(id);
        if !ok {
          return;
        }
      }
      ghost var start := |last|;
      for i := 0 to |src.children|
        invariant Sound() && id < start <= |last| && Within(t)
        invariant InodesFirst(CDir(id, kids), |kids|) == Range(start, |last|)
        invariant Charged(old(t), t, Scan(Real(CDir(id, kids), []), at))
        invariant MirrorsFirst(src, kids, i)
      {
        var (name, child) := src.children[i];
        assert name != "" && WellNamed(child);
        ghost var before, size := t, |last|;
        var made;
        ok, made := CopyNode(name, child, relative, depth, at);
        if !ok {
          return;
        }
        KidsMore(id, kids, name, made, at);
        KidsMoreInodes(id, kids, name, made);
        RangeJoin(start, size, |last|);
        ChargedMore(old(t), before, t, Scan(Real(CDir(id, kids), []), at), Found(Child(at, name)).Plus(Scan(Real(made, []), Child(at, name))));
        MirrorsMore(src, i, kids, name, made);
        kids := kids + [(name, made)];
        ok := ChargeBlocks(id);
        if !ok {
          return;
        }
      }
      ok := Finish(false);
    }

    method CopyNode(name: string, child: Source, relative: string, depth: nat, ghost at: string) returns (ok: bool, made: Copied)
      requires Sound() && name != "" && WellNamed(child) && Covers(prefixBytes, relative, at) && Within(t)
      modifies `t, `last, `charged, `seen, `pending, `copied
      ensures Sound() && |last| >= |old(last)|
      ensures ok ==> Inodes(made) == Range(|old(last)|, |last|)
      ensures ok ==> Charged(old(t), t, Found(Child(at, name)).Plus(Scan(Real(made, []), Child(at, name)))) && Within(t)
      ensures ok ==> Mirrors(child, Real(made, []))
      decreases child, 1
    {
      hide Copier.Sound, Within, Scan, Covers, Child, InodesFirst, Mirrors, MirrorsFirst, Real;
      made := CLink(0);
      ok := Finish(false);
      if !ok {
        return;
      }
      var path := Child(relative, name);
      CoversChild(prefixBytes, relative, at, name);
      ok := Reserve(path);
      if !ok {
        return;
      }
      match child {
        case SDir(_) =>
          var id := NewInode();
          var kids;
          ok, kids := Visit(child, path, id, true, depth + 1, Child(at, name));
          made := CDir(id, kids);
          assert [id] == Range(id, id + 1);
          if ok {
            RangeJoin(id, id + 1, |last|);
            MirrorsDir(child, id, kids);
          }
        case SFile(size) =>
          var id;
          ok, id := CopyFile(size);
          made := CFile(size, id);
          LeafTotals(made, Child(at, name));
          MirrorsLeaf(child, made);
          assert [id] == Range(id, id + 1);
        case SLink =>
          var id := NewInode();
          ok := ChargeBlocks(id);
          made := CLink(id);
          LeafTotals(made, Child(at, name));
          MirrorsLeaf(child, made);
          assert [id] == Range(id, id + 1);
      }
    }
  }

  /** The same names in the same order, the same kinds, and the same file sizes as in the source. */
  predicate Mirrors(s: Source, t: Tree)
    decreases s
  {
    match s
    case SDir(children) =>
      && t.Dir? && |t.children| == |children|
      && forall i :: 0 <= i < |children| ==> t.children[i].0 == children[i].0 && Mirrors(children[i].1, t.children[i].1)
    case SFile(size) => t.File? && t.size == size
    case SLink => t.Link?
  }

  /** What was made so far of a directory. */
  predicate MirrorsFirst(s: Source, kids: seq<(string, Copied)>, n: nat)
    requires s.SDir? && n <= |s.children|
  {
    |kids| == n && forall i :: 0 <= i < n ==> kids[i].0 == s.children[i].0 && Mirrors(s.children[i].1, Real(kids[i].1, []))
  }

  lemma MirrorsLeaf(s: Source, c: Copied)
    requires (s.SFile? && c.CFile? && c.size == s.size) || (s.SLink? && c.CLink?)
    ensures Mirrors(s, Real(c, []))
  {
  }

  lemma MirrorsNone(s: Source)
    requires s.SDir?
    ensures MirrorsFirst(s, [], 0)
  {
  }

  lemma MirrorsMore(s: Source, n: nat, kids: seq<(string, Copied)>, name: string, made: Copied)
    requires s.SDir? && n < |s.children| && MirrorsFirst(s, kids, n)
    requires s.children[n].0 == name && Mirrors(s.children[n].1, Real(made, []))
    ensures MirrorsFirst(s, kids + [(name, made)], n + 1)
  {
    hide Mirrors, Real;
  }

  lemma MirrorsDir(s: Source, id: nat, kids: seq<(string, Copied)>)
    requires s.SDir? && MirrorsFirst(s, kids, |s.children|)
    ensures Mirrors(s, Real(CDir(id, kids), []))
  {
    RealKids(CDir(id, kids), []);
  }

  /** Block counts do not matter. */
  lemma {:induction false} MirrorsBlocks(s: Source, c: Copied, blocks: seq<nat>)
    requires Mirrors(s, Real(c, []))
    ensures Mirrors(s, Real(c, blocks))
    decreases s
  {
    if s.SDir? {
      RealOwn(c);
      RealKids(c, []);
      RealKids(c, blocks);
      forall i | 0 <= i < |s.children|
        ensures Mirrors(s.children[i].1, Real(c.kids[i].1, blocks))
      {
        MirrorsBlocks(s.children[i].1, c.kids[i].1, blocks);
      }
    }
  }

  /** Nodes and bytes were charged exactly, paths at least for what they are. */
  ghost predicate Charged(before: Totals, after: Totals, cost: Totals) {
    after.nodes == before.nodes + cost.nodes && after.logical == before.logical + cost.logical && after.metadata >= before.metadata + cost.metadata
  }

  lemma ChargedMore(a: Totals, b: Totals, c: Totals, x: Totals, y: Totals)
    requires Charged(a, b, x) && Charged(b, c, y)
    ensures Charged(a, c, x.Plus(y))
  {
  }

  lemma NoKids(c: Copied, at: string)
    requires c.CDir? && c.kids == []
    ensures Scan(Real(c, []), at) == NOTHING && InodesFirst(c, 0) == []
  {
    hide Real, Scan, Child;
    RealKids(c, []);
    RealOwn(c);
    ScanDir(Real(c, []), at);
  }

  lemma CoversChild(prefixBytes: nat, relative: string, at: string, name: string)
    requires Covers(prefixBytes, relative, at) && name != ""
    ensures Covers(prefixBytes, Child(relative, name), Child(at, name)) && |Child(at, name)| <= prefixBytes + 1 + |Child(relative, name)|
  {
  }

  lemma LeafTotals(c: Copied, at: string)
    requires !c.CDir?
    ensures Scan(Real(c, []), at) == Totals(0, 0, if c.CFile? then c.size else 0, 0) && Inodes(c) == [c.ino]
  {
  }

  /** Without blocks nothing takes space. */
  lemma {:induction false} NoSpace(c: Copied, at: string)
    ensures Scan(Real(c, []), at).space == 0
    decreases c, 1, 0
  {
    if c.CDir? {
      RealKids(c, []);
      RealOwn(c);
      hide Real, Child;
      NoSpaceFirst(c, |c.kids|, at);
      NamesNoSpace(Real(c, []), |c.kids|, at);
      ScanDir(Real(c, []), at);
    }
  }

  lemma {:induction false} NamesNoSpace(dir: Tree, n: nat, at: string)
    requires dir.Dir? && n <= |dir.children|
    ensures Names(dir, n, at).space == 0
  {
    hide Child;
    if n > 0 {
      NamesNoSpace(dir, n - 1, at);
    }
  }

  lemma {:induction false} NoSpaceFirst(c: Copied, n: nat, at: string)
    requires c.CDir? && n <= |c.kids| && Real(c, []).Dir? && |Real(c, []).children| == |c.kids|
    ensures Below(Real(c, []), n, at).space == 0
    decreases c, 0, n
  {
    hide Real, Child, Scan, Below;
    if n == 0 {
      BelowNone(Real(c, []), at);
    } else {
      RealKids(c, []);
      NoSpaceFirst(c, n - 1, at);
      NoSpace(c.kids[n - 1].1, Child(at, c.kids[n - 1].0));
      BelowNext(Real(c, []), n - 1, at);
    }
  }

  /** The final scan of the destination: what was charged, and the blocks last seen. */
  lemma FinalScan(c: Copied, blocks: seq<nat>, at: string)
    requires c.CDir? && Inodes(c) == Range(0, |blocks|)
    ensures Scan(Real(c, blocks), at) == Spaced(Scan(Real(c, []), at), Sum(blocks))
  {
    ScanReal(c, blocks, at);
  }

  /** The falls of all inodes together. */
  ghost function Fell(first: nat, seen: seq<seq<nat>>): nat {
    if seen == [] then 0
    else Fell(first, seen[..|seen| - 1]) + Falls(if |seen| == 1 then first else 0, seen[|seen| - 1])
  }

  lemma SumLast(blocks: seq<nat>)
    requires blocks != []
    ensures Sum(blocks) == Sum(blocks[..|blocks| - 1]) + blocks[|blocks| - 1]
  {
    var init := blocks[..|blocks| - 1];
    assert blocks == init + [blocks[|blocks| - 1]];
    RangeJoin(0, |init|, |blocks|);
    SumAtAppend(Range(0, |init|), [|init|], blocks);
    SumAtSame(Range(0, |init|), init, blocks);
    assert Range(|init|, |blocks|) == [|init|] && [|init|][..0] == [];
    assert SumAt([|init|], blocks) == SumAt([], blocks) + blocks[|init|];
  }

  /** Charges, last counts and falls of all inodes balance, up to the first look at the destination. */
  lemma {:induction false} Balance(charged: seq<nat>, last: seq<nat>, seen: seq<seq<nat>>, first: nat)
    requires |charged| == |last| == |seen|
    requires forall i :: 0 <= i < |last| ==> charged[i] == Charge(if i == 0 then first else 0, seen[i])
    requires forall i :: 0 <= i < |last| ==> last[i] == LastSeen(if i == 0 then first else 0, seen[i])
    ensures Sum(charged) + (if seen == [] then 0 else first) == Sum(last) + Fell(first, seen)
    decreases |seen|
  {
    hide Sum, Charge, LastSeen, Falls;
    var n := |seen|;
    if n == 0 {
      EmptySum(charged);
      EmptySum(last);
    } else {
      SumLast(charged);
      SumLast(last);
      ChargeBalance(if n == 1 then first else 0, seen[n - 1]);
      Balance(charged[..n - 1], last[..n - 1], seen[..n - 1], first);
    }
  }

  lemma EmptySum(blocks: seq<nat>)
    requires blocks == []
    ensures Sum(blocks) == 0
  {
  }

  lemma {:induction false} FellAtLeast(first: nat, seen: seq<seq<nat>>)
    requires seen != []
    ensures Fell(first, seen) >= Falls(first, seen[0])
    decreases |seen|
  {
    if |seen| > 1 {
      FellAtLeast(first, seen[..|seen| - 1]);
    } else {
      assert seen[..0] == [];
    }
  }

  /** Scanning an empty directory. */
  lemma EmptyScan(blocks: nat, at: string)
    ensures Scan(Dir(blocks, []), at) == Totals(0, 0, 0, 512 * blocks)
  {
  }

  const NAMES: seq<string> := ["home-manager", "nixpkgs"]

  /** The charge for the path above a copied node: the staging path, a slash and the longest name. */
  function PrefixBytes(staging: string): nat { (if staging == "" then 1 else |staging|) + 1 + 12 }

  lemma NamesCovered(staging: string, name: string)
    requires name in NAMES
    ensures Covers(PrefixBytes(staging), "", Child(staging, name))
  {
    assert NAMES[0] == "home-manager" && NAMES[1] == "nixpkgs" && |NAMES[0]| == 12 && |NAMES[1]| == 7;
  }

  /**
    copy_source_tree into the new directory `name` of the staging directory.  At the end nodes and
    bytes are charged exactly as a full scan of the final tree counts them and paths at least so.  The
    charge for blocks differs from what that scan counts by what fell while copying, less what the
    directory grew between the baseline scan and the first look at it; so it covers the scan exactly
    when that growth is no more than what fell.
  */
  method CopySourceTree(root: Tree, loc: seq<nat>, source: Source, staging: string, name: string)
    returns (ok: bool, budget: Totals, first: nat, final: Tree, ghost seen: seq<nat>, ghost fell: nat)
    requires root.Dir? && Located(root, loc) && At(root, loc).Dir? && At(root, loc).children == []
    requires source.SDir? && WellNamed(source) && name in NAMES && PathAt(root, loc, "") == Child(staging, name)
    ensures ok ==> exists copy: Tree :: final == Replace(root, loc, copy) && Mirrors(source, copy) && copy.blocks == LastSeen(first, seen)
    ensures ok ==> budget.nodes == Usage(final).nodes && budget.logical == Usage(final).logical && budget.metadata >= Usage(final).metadata
    ensures ok ==> budget.space + 512 * first == Usage(final).space + 512 * (At(root, loc).blocks + fell) && fell >= Falls(first, seen)
    ensures ok ==> (budget.space >= Usage(final).space <==> first <= At(root, loc).blocks + fell)
    ensures ok && first <= At(root, loc).blocks + fell ==> Within(Usage(final))
  {
    hide Within, Scan, Real, Covers, Shallow, Located, Replace, PathAt, Mirrors, Charge, LastSeen, Falls, Fell, Sum;
    budget, first, final, seen, fell := NOTHING, 0, root, [], 0;
    var baseline := PrivateUsage(root);
    if baseline.None? {
      return false, budget, first, final, seen, fell;
    }
    first := *;
    ghost var at := PathAt(root, loc, "");
    NamesCovered(staging, name);
    var copier := new Copier(PrefixBytes(staging), baseline.value, first);
    var kids;
    ok, kids := copier.Visit(source, "", 0, false, 0, at);
    if !ok {
      return;
    }
    ok := copier.Finish(true);
    if !ok {
      return;
    }
    budget := copier.t;
    var c := CDir(0, kids);
    final := Replace(root, loc, Real(c, copier.last));
    seen, fell := copier.seen[0], Fell(first, copier.seen);
    Settled(copier, root, loc, source, kids, at, first, final);
    assert At(root, loc) == Dir(At(root, loc).blocks, []);
    if first <= At(root, loc).blocks + fell {
      Exceeds(Usage(final), budget);
    }
  }

  /** What the copier's account says of the final tree. */
  lemma Settled(copier: Copier, root: Tree, loc: seq<nat>, source: Source, kids: seq<(string, Copied)>, at: string, first: nat, final: Tree)
    requires copier.Sound() && copier.first == first && Located(root, loc) && At(root, loc).Dir? && At(root, loc).children == [] && at == PathAt(root, loc, "")
    requires source.SDir? && InodesFirst(CDir(0, kids), |kids|) == Range(1, |copier.last|) && MirrorsFirst(source, kids, |source.children|)
    requires final == Replace(root, loc, Real(CDir(0, kids), copier.last))
    ensures var c := CDir(0, kids);
            && Mirrors(source, Real(c, copier.last)) && Real(c, copier.last).blocks == LastSeen(first, copier.seen[0])
            && Fell(first, copier.seen) >= Falls(first, copier.seen[0])
            && Usage(final).Plus(Totals(0, 0, 0, 512 * At(root, loc).blocks)).Plus(Totals(0, 0, 0, 512 * Fell(first, copier.seen)))
               == Usage(root).Plus(Scan(Real(c, []), at)).Plus(Totals(0, 0, 0, 512 * (Sum(copier.charged) + first)))
            && Scan(Real(c, []), at).space == 0
  {
    hide Within, Scan, Covers, Shallow, Located, Replace, PathAt, Mirrors, Charge, LastSeen, Falls, Fell, Sum;
    var c := CDir(0, kids);
    RealOwnBlocks(c, copier.last);
    hide Real;
    assert Inodes(c) == Range(0, |copier.last|) by {
      assert [0] == Range(0, 1);
      RangeJoin(0, 1, |copier.last|);
    }
    MirrorsDir(source, 0, kids);
    MirrorsBlocks(source, c, copier.last);
    FinalScan(c, copier.last, at);
    NoSpace(c, at);
    FellAtLeast(first, copier.seen);
    Balance(copier.charged, copier.last, copier.seen, first);
    ReplaceScan(root, loc, Real(c, copier.last), "");
    EmptyScan(At(root, loc).blocks, at);
    assert At(root, loc) == Dir(At(root, loc).blocks, []);
  }

  lemma RealOwnBlocks(c: Copied, blocks: seq<nat>)
    requires c.CDir? && c.ino < |blocks|
    ensures Real(c, blocks).blocks == blocks[c.ino]
  {
  }

  // ----- The growth that goes uncharged -----

  /**
    The destination is counted by the baseline but its charges start from the first look at it.  With
    these counts seen later its account covers the last of them exactly when the growth in between is
    no more than what fell later; whatever is seen later, exactly when there was no such growth.
  */
  lemma DestinationCovered(baseline: nat, first: nat)
    ensures forall seen :: baseline + Charge(first, seen) >= LastSeen(first, seen) <==> first <= baseline + Falls(first, seen)
    ensures (forall seen :: baseline + Charge(first, seen) >= LastSeen(first, seen)) <==> first <= baseline
  {
    forall seen ensures baseline + Charge(first, seen) >= LastSeen(first, seen) <==> first <= baseline + Falls(first, seen) {
      ChargeBalance(first, seen);
    }
    if first > baseline {
      assert !(baseline + Charge(first, []) >= LastSeen(first, []));
    }
  }

  /** A destination of 8 blocks that has 16 at the first look and keeps them: 8 of them are never charged. */
  lemma GrowthUncharged()
    ensures 8 + Charge(16, [16, 16]) < LastSeen(16, [16, 16])
  {
    assert [16, 16][..1] == [16] && [16][..0] == [];
    assert Charge(16, [16]) == 0;
  }

  // ----- ReconstructionBudget -----

  type Inode = (nat, nat)

  const MAX_ACCOUNTS: nat := 3 * 200000 + 1024

  /** The sum of a map's values, in whatever order. */
  ghost function Total(m: map<Inode, nat>): nat
    decreases m.Keys
  {
    if m == map[] then 0 else var k :| k in m; m[k] + Total(m - {k})
  }

  lemma {:induction false} TotalWithout(m: map<Inode, nat>, k: Inode)
    requires k in m
    ensures Total(m) == m[k] + Total(m - {k})
    decreases m.Keys
  {
    var j :| j in m && Total(m) == m[j] + Total(m - {j});
    if j != k {
      TotalWithout(m - {j}, k);
      TotalWithout(m - {k}, j);
      assert m - {j} - {k} == m - {k} - {j};
    }
  }

  lemma TotalSet(m: map<Inode, nat>, k: Inode, v: nat)
    ensures Total(m[k := v]) == Total(m) + v - (if k in m then m[k] else 0)
  {
    TotalWithout(m[k := v], k);
    assert m[k := v] - {k} == m - {k};
    if k in m {
      TotalWithout(m, k);
    } else {
      assert m - {k} == m;
    }
  }

  /** The largest count recorded for an inode. */
  function Largest(history: seq<(Inode, nat)>, k: Inode): nat {
    if history == [] then 0
    else
      var (j, v) := history[|history| - 1];
      var before := Largest(history[..|history| - 1], k);
      if j == k && v > before then v else before
  }

  predicate Met(history: seq<(Inode, nat)>, k: Inode) { exists i :: 0 <= i < |history| && history[i].0 == k }

  /** The space is the sum over the inodes met of the largest count recorded for each. */
  ghost predicate Largests(blocks: map<Inode, nat>, space: nat, history: seq<(Inode, nat)>) {
    && space == Total(blocks)
    && (forall k :: k in blocks <==> Met(history, k))
    && (forall k :: k in blocks ==> blocks[k] == Largest(history, k))
  }

  class Reconstruction {
    const logical: nat
    var blocks: map<Inode, nat>
    var space: nat
    ghost var history: seq<(Inode, nat)>

    ghost predicate Valid()
      reads this
    {
      Largests(blocks, space, history)
    }

    constructor (logical: nat)
      requires logical <= DISK_BUDGET
      ensures Valid() && this.logical == logical && history == []
    {
      this.logical, blocks, space, history := logical, map[], 0, [];
    }

    /** record(): the books are right even when the budget is found exceeded. */
    method Record(key: Inode, count: nat) returns (ok: bool)
      requires Valid()
      modifies this
      ensures Valid()
      ensures history == if key in old(blocks) || |old(blocks)| < MAX_ACCOUNTS then old(history) + [(key, 512 * count)] else old(history)
      ensures ok <==> (key in old(blocks) || |old(blocks)| < MAX_ACCOUNTS) && logical <= DISK_BUDGET && space <= DISK_BUDGET
    {
      hide Largests;
      if key !in blocks && |blocks| >= MAX_ACCOUNTS {
        return false;
      }
      var current := 512 * count;
      var before := if key in blocks then blocks[key] else 0;
      LargestsMore(blocks, space, history, key, current);
      space := space + if current > before then current - before else 0;
      blocks := blocks[key := if current > before then current else before];
      history := history + [(key, current)];
      ok := logical <= DISK_BUDGET && space <= DISK_BUDGET;
    }
  }

  lemma LargestsMore(blocks: map<Inode, nat>, space: nat, history: seq<(Inode, nat)>, key: Inode, current: nat)
    requires Largests(blocks, space, history)
    ensures var before := if key in blocks then blocks[key] else 0;
            Largests(blocks[key := if current > before then current else before],
                     space + (if current > before then current - before else 0), history + [(key, current)])
  {
    hide Total;
    var before := if key in blocks then blocks[key] else 0;
    TotalSet(blocks, key, if current > before then current else before);
    LargestMore(history, key, current);
    if key !in blocks {
      LargestNone(history, key);
    }
    forall k ensures Met(history + [(key, current)], k) <==> Met(history, k) || k == key {
      MetMore(history, key, current, k);
    }
    hide Met, Largest;
  }

  lemma MetMore(history: seq<(Inode, nat)>, key: Inode, v: nat, k: Inode)
    ensures Met(history + [(key, v)], k) <==> Met(history, k) || k == key
  {
    var after := history + [(key, v)];
    assert after[|history|].0 == key;
    if Met(history, k) {
      var i :| 0 <= i < |history| && history[i].0 == k;
      assert after[i].0 == k;
    }
  }

  lemma LargestMore(history: seq<(Inode, nat)>, key: Inode, v: nat)
    ensures forall k :: Largest(history + [(key, v)], k) == if k == key && v > Largest(history, k) then v else Largest(history, k)
  {
  }

  lemma {:induction false} LargestNone(history: seq<(Inode, nat)>, k: Inode)
    requires !Met(history, k)
    ensures Largest(history, k) == 0
  {
    if history != [] {
      assert history[|history| - 1].0 != k;
      LargestNone(history[..|history| - 1], k);
    }
  }
}
