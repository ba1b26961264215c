/**
  The dependency planner of tools/codex_dependency_bundle.py, its independent checker and
  the shard selector.

  A row is expanded when it describes a source.json whose bytes are at hand; the expansion
  may name further rows.  `build_plan` and `verify_plan_authority` both run a worklist over
  that relation, the first against the cache directories and the second against what the
  plan exported.  Hashing, URL admission and `module_descriptors` are function values.
*/
module DependencyPlan {

  import opened Basics

  const MAX_ROWS: nat := 30000
  const MAX_OBJECTS: nat := 5000
  const MAX_SOURCE_JSON: nat := 1024 * 1024
  const MAX_FILE: nat := 1024 * 1024 * 1024
  const MAX_DOWNLOADS: nat := 64

  type Bytes = seq<int>

  datatype Row = Row(kind: string, identity: string, sha256: string, urls: seq<string>)

  /** What opening a digest object in one place gives. */
  datatype Stored = Absent | Refused | Held(bytes: Bytes)

  datatype World = World(hash: Bytes -> string, publicUrl: (string, string) -> bool,
                         moduleDescriptors: (string, Bytes) -> Option<seq<Row>>)

  datatype Plan = Plan(descriptors: seq<Row>, objects: map<string, nat>, missing: seq<Row>)

  // ----- Rows -----

  function Key(r: Row): (string, string) { (r.kind, r.identity) }

  predicate LowerHex(c: char) { '0' <= c <= '9' || 'a' <= c <= 'f' }

  predicate KindOk(s: string) {
    && 0 < |s| <= 64 && 'a' <= s[0] <= 'z'
    && forall i :: 0 <= i < |s| ==> 'a' <= s[i] <= 'z' || '0' <= s[i] <= '9' || s[i] == '-'
  }

  predicate DigestOk(s: string) { |s| == 64 && forall i :: 0 <= i < |s| ==> LowerHex(s[i]) }

  predicate RowOk(w: World, r: Row) {
    && DigestOk(r.sha256) && KindOk(r.kind)
    && 0 < |r.identity| <= 4096 && '\0' !in r.identity && '\r' !in r.identity && '\n' !in r.identity
    && 0 < |r.urls| <= 16
    && forall i :: 0 <= i < |r.urls| ==> |r.urls[i]| <= 8192 && w.publicUrl(r.urls[i], r.sha256)
  }

  predicate IsSourceJson(r: Row) {
    r.kind == "bazel-registry-file" && EndsWith(r.identity, "/source.json")
  }

  // ----- The expansion relation and its least fixpoint -----

  /** stream_object: custody and size were checked and the bytes hash to the selected digest. */
  function Stream(w: World, s: Stored, digest: string, limit: nat): Option<Bytes> {
    if s.Held? && |s.bytes| <= limit && w.hash(s.bytes) == digest then Some(s.bytes) else None
  }

  /** The rows a row gives rise to, or None where reading or deriving is refused. */
  function Expand(w: World, look: string -> Stored, r: Row): Option<seq<Row>> {
    if !IsSourceJson(r) || look(r.sha256).Absent? then Some([])
    else
      match Stream(w, look(r.sha256), r.sha256, MAX_SOURCE_JSON)
      case None => None
      case Some(bytes) => w.moduleDescriptors(r.identity, bytes)
  }

  ghost predicate ClosedUnder(w: World, look: string -> Stored, S: set<Row>) {
    forall r, q :: r in S && Expand(w, look, r).Some? && q in Expand(w, look, r).value ==> q in S
  }

  ghost predicate Contains(roots: seq<Row>, S: set<Row>) { forall r :: r in roots ==> r in S }

  /** R is the least set that contains the roots and is closed under expansion. */
  ghost predicate IsLeast(w: World, look: string -> Stored, roots: seq<Row>, R: set<Row>) {
    && Contains(roots, R) && ClosedUnder(w, look, R)
    && forall S: set<Row> :: Contains(roots, S) && ClosedUnder(w, look, S) ==> R <= S
  }

  /** What both worklists demand of the rows they meet. */
  ghost predicate Admissible(w: World, look: string -> Stored, R: set<Row>) {
    && (forall r :: r in R ==> RowOk(w, r) && Expand(w, look, r).Some?)
    && (forall r, q :: r in R && q in R && Key(r) == Key(q) ==> r == q)
    && |R| <= MAX_ROWS
  }

  // ----- Order -----

  predicate KeyLess(a: Row, b: Row) {
    LexLess(a.kind, b.kind) || (a.kind == b.kind && LexLess(a.identity, b.identity))
  }

  /** The second sort key: registry files first, source.json files first among them. */
  predicate MetaLess(a: Row, b: Row) {
    var a1, b1 := a.kind != "bazel-registry-file", b.kind != "bazel-registry-file";
    var a2, b2 := !EndsWith(a.identity, "/source.json"), !EndsWith(b.identity, "/source.json");
    if a1 != b1 then b1 else if a2 != b2 then b2 else KeyLess(a, b)
  }

  /** `meta` selects which of the two orders is meant. */
  predicate Less(meta: bool, a: Row, b: Row) { if meta then MetaLess(a, b) else KeyLess(a, b) }

  lemma LessTransitive(meta: bool, a: Row, b: Row, c: Row)
    requires Less(meta, a, b) && Less(meta, b, c)
    ensures Less(meta, a, c)
  {
    if LexLess(a.kind, b.kind) && LexLess(b.kind, c.kind) { LexTransitive(a.kind, b.kind, c.kind); }
    if LexLess(a.identity, b.identity) && LexLess(b.identity, c.identity) {
      LexTransitive(a.identity, b.identity, c.identity);
    }
  }

  lemma LessTotal(meta: bool, a: Row, b: Row)
    ensures !(Less(meta, a, b) && Less(meta, b, a))
    ensures Key(a) != Key(b) ==> Less(meta, a, b) || Less(meta, b, a)
    ensures Key(a) == Key(b) ==> !Less(meta, a, b)
  {
    LexTotal(a.kind, b.kind);
    LexTotal(a.identity, b.identity);
  }

  ghost predicate SortedBy(meta: bool, s: seq<Row>) {
    forall i, j :: 0 <= i < j < |s| ==> Less(meta, s[i], s[j])
  }

  function RowsOf(s: seq<Row>): set<Row> { set r | r in s }

  /** A strictly sorted listing is determined by its rows. */
  lemma {:induction false} SortedUnique(meta: bool, s: seq<Row>, t: seq<Row>)
    requires SortedBy(meta, s) && SortedBy(meta, t) && RowsOf(s) == RowsOf(t)
    ensures s == t
  {
    assert forall r :: r in s <==> r in RowsOf(s);
    assert forall r :: r in t <==> r in RowsOf(t);
    assert (s != [] ==> s[0] in t) && (t != [] ==> t[0] in s);
    if s != [] && t != [] {
      assert s[0] in RowsOf(t) && t[0] in RowsOf(s);
      var i :| 0 <= i < |t| && t[i] == s[0];
      var j :| 0 <= j < |s| && s[j] == t[0];
      LessTotal(meta, s[0], t[0]);
      assert i == 0 && j == 0;
      forall r ensures r in s[1..] <==> r in t[1..] {
        LessTotal(meta, s[0], s[0]);
        assert r in s[1..] ==> r in RowsOf(s) && r in RowsOf(t) && r != s[0];
        assert r in t[1..] ==> r in RowsOf(t) && r in RowsOf(s) && r != s[0];
      }
      SortedUnique(meta, s[1..], t[1..]);
      assert s == [s[0]] + s[1..] && t == [t[0]] + t[1..];
    }
  }

  // ----- Sorting, as `sorted` does -----

  ghost predicate DistinctKeys(s: seq<Row>) {
    forall i, j :: 0 <= i < j < |s| ==> Key(s[i]) != Key(s[j])
  }

  function Insert(meta: bool, s: seq<Row>, x: Row): seq<Row> {
    if s == [] then [x]
    else if Less(meta, x, s[0]) then [x] + s
    else [s[0]] + Insert(meta, s[1..], x)
  }

  lemma {:induction false} InsertSorted(meta: bool, s: seq<Row>, x: Row)
    requires SortedBy(meta, s) && forall i :: 0 <= i < |s| ==> Key(s[i]) != Key(x)
    ensures SortedBy(meta, Insert(meta, s, x)) && RowsOf(Insert(meta, s, x)) == RowsOf(s) + {x}
    ensures |Insert(meta, s, x)| == |s| + 1
  {
    hide Less;
    if s == [] {
    } else if Less(meta, x, s[0]) {
      InsertFirst(meta, s, x);
    } else {
      var rest := Insert(meta, s[1..], x);
      InsertSorted(meta, s[1..], x);
      LessTotal(meta, x, s[0]);
      forall y | y in RowsOf(rest) ensures Less(meta, s[0], y) {
        assert y in RowsOf(s[1..]) + {x};
      }
      SortedCons(meta, s[0], rest);
      assert s == [s[0]] + s[1..] && RowsOf([s[0]] + s[1..]) == {s[0]} + RowsOf(s[1..]);
    }
  }

  lemma InsertFirst(meta: bool, s: seq<Row>, x: Row)
    requires SortedBy(meta, s) && s != [] && Less(meta, x, s[0])
    ensures SortedBy(meta, [x] + s) && RowsOf([x] + s) == RowsOf(s) + {x}
  {
    hide Less;
    forall i | 0 <= i < |s| ensures Less(meta, x, s[i]) {
      if i > 0 { LessTransitive(meta, x, s[0], s[i]); }
    }
    SortedCons(meta, x, s);
  }

  lemma SortedCons(meta: bool, x: Row, s: seq<Row>)
    requires SortedBy(meta, s) && forall y :: y in RowsOf(s) ==> Less(meta, x, y)
    ensures SortedBy(meta, [x] + s) && RowsOf([x] + s) == {x} + RowsOf(s)
  {
    hide Less;
    forall i | 0 <= i < |s| ensures Less(meta, x, s[i]) {
      assert s[i] in RowsOf(s);
    }
  }

  method Sort(meta: bool, rows: seq<Row>) returns (s: seq<Row>)
    requires DistinctKeys(rows)
    ensures SortedBy(meta, s) && RowsOf(s) == RowsOf(rows) && |s| == |rows|
  {
    s := [];
    for n := 0 to |rows|
      invariant SortedBy(meta, s) && RowsOf(s) == RowsOf(rows[..n]) && |s| == n
    {
      assert forall i :: 0 <= i < |s| ==> s[i] in RowsOf(s);
      InsertSorted(meta, s, rows[n]);
      s := Insert(meta, s, rows[n]);
      assert rows[..n + 1] == rows[..n] + [rows[n]];
    }
    assert rows[..|rows|] == rows;
  }

  // ----- The worklist invariant shared by planner and checker -----

  /** R is what was taken from the worklist and `pending` what still waits in it. */
  ghost predicate Frontier(w: World, look: string -> Stored, roots: seq<Row>, R: set<Row>, pending: seq<Row>) {
    && (forall r :: r in roots ==> r in R || r in pending)
    && (forall r :: r in R ==> Expand(w, look, r).Some?)
    && (forall r, q :: r in R && q in Expand(w, look, r).value ==> q in R || q in pending)
    && (forall S: set<Row> :: Contains(roots, S) && ClosedUnder(w, look, S) ==> R <= S && Contains(pending, S))
  }

  lemma FrontierSkip(w: World, look: string -> Stored, roots: seq<Row>, R: set<Row>, pending: seq<Row>)
    requires Frontier(w, look, roots, R, pending) && pending != [] && pending[0] in R
    ensures Frontier(w, look, roots, R, pending[1..])
  {
  }

  lemma FrontierTake(w: World, look: string -> Stored, roots: seq<Row>, R: set<Row>, pending: seq<Row>, derived: seq<Row>)
    requires Frontier(w, look, roots, R, pending) && pending != []
    requires Expand(w, look, pending[0]) == Some(derived)
    ensures Frontier(w, look, roots, R + {pending[0]}, pending[1..] + derived)
  {
  }

  lemma FrontierDone(w: World, look: string -> Stored, roots: seq<Row>, R: set<Row>)
    requires Frontier(w, look, roots, R, [])
    ensures IsLeast(w, look, roots, R)
  {
  }

  /** No admissible fixpoint survives what makes a worklist refuse. */
  lemma FrontierRefused(w: World, look: string -> Stored, roots: seq<Row>, R: set<Row>, pending: seq<Row>, L: set<Row>)
    requires Frontier(w, look, roots, R, pending) && pending != []
    requires IsLeast(w, look, roots, L) && Admissible(w, look, L)
    ensures R <= L && pending[0] in L && RowOk(w, pending[0]) && Expand(w, look, pending[0]).Some?
    ensures forall r :: r in R && Key(r) == Key(pending[0]) ==> r == pending[0]
    ensures |R + {pending[0]}| <= MAX_ROWS
  {
    assert pending[0] in pending && R <= L && Contains(pending, L);
    SubsetSize(R + {pending[0]}, L);
  }

  lemma {:induction false} SubsetSize<T>(a: set<T>, b: set<T>)
    requires a <= b
    ensures |a| <= |b|
  {
    assert b == a + (b - a);
  }

  // ----- build_plan -----

  function Digests(R: set<Row>): set<string> { set r | r in R :: r.sha256 }

  /** The sources are consulted in order and the first one that has the object decides. */
  function First(sources: seq<string -> Stored>, digest: string): Stored {
    if sources == [] then Absent
    else if sources[0](digest).Absent? then First(sources[1..], digest)
    else sources[0](digest)
  }

  ghost function InSources(sources: seq<string -> Stored>): string -> Stored {
    d => First(sources, d)
  }

  method ReadFirst(sources: seq<string -> Stored>, digest: string) returns (s: Stored)
    ensures s == First(sources, digest)
  {
    for n := 0 to |sources|
      invariant First(sources, digest) == First(sources[n..], digest)
    {
      s := sources[n](digest);
      if !s.Absent? {
        return;
      }
      assert sources[n..][1..] == sources[n + 1..];
    }
    s := Absent;
  }

  /** The objects exported so far against the rows taken so far. */
  ghost predicate Exported(w: World, sources: seq<string -> Stored>, R: set<Row>, objects: map<string, nat>,
                           root: map<string, Bytes>, missing: set<string>) {
    && objects.Keys == root.Keys && root.Keys + missing == Digests(R)
    && (forall d :: d in root ==> objects[d] == |root[d]| && First(sources, d) == Held(root[d]) && w.hash(root[d]) == d)
    && (forall d :: d in missing ==> First(sources, d).Absent?)
  }

  /** The rows to fetch: for each missing digest its least row, metadata first. */
  ghost predicate MissingRows(R: set<Row>, missing: set<string>, rows: seq<Row>) {
    && SortedBy(true, rows)
    && (forall r :: r in rows ==> r in R && r.sha256 in missing)
    && (forall i, j :: 0 <= i < j < |rows| ==> rows[i].sha256 != rows[j].sha256)
    && (forall q :: q in R && q.sha256 in missing ==>
          exists r :: r in rows && r.sha256 == q.sha256 && (r == q || MetaLess(r, q)))
  }

  ghost predicate PlanMade(w: World, artifacts: seq<Row>, sources: seq<string -> Stored>, plan: Plan,
                           root: map<string, Bytes>) {
    var R := RowsOf(plan.descriptors);
    && SortedBy(false, plan.descriptors)
    && IsLeast(w, InSources(sources), artifacts, R) && Admissible(w, InSources(sources), R)
    && Exported(w, sources, R, plan.objects, root, Digests(R) - plan.objects.Keys)
    && MissingRows(R, Digests(R) - plan.objects.Keys, plan.missing)
  }

  /** No source has the object, or the first that has it gives the right bytes. */
  ghost predicate Obtainable(w: World, sources: seq<string -> Stored>, digest: string) {
    var s := First(sources, digest);
    s.Absent? || (s.Held? && w.hash(s.bytes) == digest)
  }

  lemma PlanObtains(w: World, artifacts: seq<Row>, sources: seq<string -> Stored>, plan: Plan, root: map<string, Bytes>, row: Row)
    requires PlanMade(w, artifacts, sources, plan, root) && row in RowsOf(plan.descriptors)
    ensures Obtainable(w, sources, row.sha256)
  {
    hide IsLeast, Admissible, MissingRows, SortedBy;
    assert row.sha256 in Digests(RowsOf(plan.descriptors));
  }

  /** Copies the row's object out of the first source that has it, unless its digest was met before. */
  method Obtain(w: World, sources: seq<string -> Stored>, row: Row, ghost R: set<Row>, objects: map<string, nat>,
                root: map<string, Bytes>, missing: set<string>)
    returns (ok: bool, stopped: bool, objects': map<string, nat>, root': map<string, Bytes>, missing': set<string>)
    requires Exported(w, sources, R, objects, root, missing)
    ensures ok ==> Exported(w, sources, R + {row}, objects', root', missing')
    ensures !ok && !stopped ==> !Obtainable(w, sources, row.sha256)
  {
    var digest := row.sha256;
    ok, stopped, objects', root', missing' := true, false, objects, root, missing;
    hide Exported, Digests, First;
    if digest in objects || digest in missing {
      ExportedSame(w, sources, R, row, objects, root, missing);
    } else {
      var found := ReadFirst(sources, digest);
      if found.Absent? {
        ExportedMiss(w, sources, R, row, objects, root, missing);
        missing' := missing + {digest};
      } else {
        var limit := if IsSourceJson(row) then MAX_SOURCE_JSON else MAX_FILE;
        var diskRefused: bool := *;
        if |objects| >= MAX_OBJECTS || diskRefused || (found.Held? && |found.bytes| > limit) {
          return false, true, objects, root, missing;
        }
        var bytes := Stream(w, found, digest, limit);
        if bytes.None? {
          return false, false, objects, root, missing;
        }
        ExportedAdd(w, sources, R, row, objects, root, missing, bytes.value);
        objects', root' := objects[digest := |bytes.value|], root[digest := bytes.value];
      }
    }
  }

  lemma ExportedSame(w: World, sources: seq<string -> Stored>, R: set<Row>, row: Row, objects: map<string, nat>,
                     root: map<string, Bytes>, missing: set<string>)
    requires Exported(w, sources, R, objects, root, missing) && (row.sha256 in objects || row.sha256 in missing)
    ensures Exported(w, sources, R + {row}, objects, root, missing)
  {
  }

  lemma ExportedMiss(w: World, sources: seq<string -> Stored>, R: set<Row>, row: Row, objects: map<string, nat>,
                     root: map<string, Bytes>, missing: set<string>)
    requires Exported(w, sources, R, objects, root, missing) && First(sources, row.sha256).Absent?
    ensures Exported(w, sources, R + {row}, objects, root, missing + {row.sha256})
  {
  }

  lemma ExportedAdd(w: World, sources: seq<string -> Stored>, R: set<Row>, row: Row, objects: map<string, nat>,
                    root: map<string, Bytes>, missing: set<string>, bytes: Bytes)
    requires Exported(w, sources, R, objects, root, missing) && row.sha256 !in missing
    requires First(sources, row.sha256) == Held(bytes) && w.hash(bytes) == row.sha256
    ensures Exported(w, sources, R + {row}, objects[row.sha256 := |bytes|], root[row.sha256 := bytes], missing)
  {
  }

  /** The rows named by the row's own bytes, read back from the export. */
  method Derive(w: World, sources: seq<string -> Stored>, row: Row, ghost R: set<Row>, objects: map<string, nat>,
                root: map<string, Bytes>, ghost missing: set<string>)
    returns (derived: Option<seq<Row>>)
    requires Exported(w, sources, R, objects, root, missing) && row in R
    ensures derived == Expand(w, InSources(sources), row)
  {
    assert row.sha256 in Digests(R);
    if !IsSourceJson(row) || row.sha256 !in objects {
      return Some([]);
    }
    var bytes := Stream(w, Held(root[row.sha256]), row.sha256, MAX_SOURCE_JSON);
    if bytes.None? {
      return None;
    }
    return w.moduleDescriptors(row.identity, bytes.value);
  }

  /**
    Budget, disk, object-count and object-size refusals (`stopped`) may happen at any point; for any
    other refusal there is no plan at all.
  */
  method BuildPlan(w: World, artifacts: seq<Row>, sources: seq<string -> Stored>)
    returns (plan: Option<Plan>, root: map<string, Bytes>, stopped: bool)
    ensures plan.Some? ==> PlanMade(w, artifacts, sources, plan.value, root)
    ensures plan.None? && !stopped ==> forall p, objects :: !PlanMade(w, artifacts, sources, p, objects)
  {
    hide Frontier, Exported, Indexed, RowOk, IsLeast, Admissible, MissingRows, Expand, SortedBy, PlanMade, Obtainable;
    stopped := false;
    var pending, order, rows := artifacts, [], map[];
    var objects: map<string, nat>, missing: set<string> := map[], {};
    root, plan := map[], None;
    ghost var look := InSources(sources);
    Start(w, sources, artifacts);
    while pending != []
      invariant Frontier(w, look, artifacts, RowsOf(order), pending)
      invariant Exported(w, sources, RowsOf(order), objects, root, missing)
      invariant Indexed(w, rows, order) && |order| <= MAX_ROWS
      decreases MAX_ROWS - |order|, |pending|
    {
      stopped := *;
      if stopped {
        return;
      }
      var row := pending[0];
      forall p, o | PlanMade(w, artifacts, sources, p, o) ensures Tolerates(w, look, rows, order, row) && Obtainable(w, sources, row.sha256) {
        PlanTolerates(w, artifacts, sources, p, o, rows, order, pending);
      }
      if !RowOk(w, row) || (Key(row) in rows && rows[Key(row)] != row) {
        return;
      }
      if Key(row) in rows {
        IndexedKey(w, rows, order, row);
        FrontierSkip(w, look, artifacts, RowsOf(order), pending);
        pending := pending[1..];
        continue;
      }
      if |order| == MAX_ROWS {
        return;
      }
      IndexedAdd(w, rows, order, row);
      rows, order := rows[Key(row) := row], order + [row];
      var ok;
      ok, stopped, objects, root, missing := Obtain(w, sources, row, RowsOf(order) - {row}, objects, root, missing);
      if !ok {
        return;
      }
      var derived := Derive(w, sources, row, RowsOf(order), objects, root, missing);
      if derived.None? {
        return;
      }
      FrontierTake(w, look, artifacts, RowsOf(order) - {row}, pending, derived.value);
      pending := pending[1..] + derived.value;
    }
    FrontierDone(w, look, artifacts, RowsOf(order));
    IndexedAdmissible(w, look, artifacts, rows, order);
    ExportedMissing(w, sources, RowsOf(order), objects, root, missing);
    var descriptors := Sort(false, order);
    var selected := SelectMissing(order, missing);
    plan := Some(Plan(descriptors, objects, selected));
    MadeFrom(w, artifacts, sources, plan.value, root, missing);
  }

  lemma MadeFrom(w: World, artifacts: seq<Row>, sources: seq<string -> Stored>, plan: Plan, root: map<string, Bytes>, missing: set<string>)
    requires var R := RowsOf(plan.descriptors);
             && SortedBy(false, plan.descriptors) && IsLeast(w, InSources(sources), artifacts, R) && Admissible(w, InSources(sources), R)
             && Exported(w, sources, R, plan.objects, root, missing) && missing == Digests(R) - plan.objects.Keys
             && MissingRows(R, missing, plan.missing)
    ensures PlanMade(w, artifacts, sources, plan, root)
  {
  }

  /** A plan that exists rules out every refusal of the next row. */
  lemma PlanTolerates(w: World, artifacts: seq<Row>, sources: seq<string -> Stored>, plan: Plan, root: map<string, Bytes>,
                      rows: map<(string, string), Row>, order: seq<Row>, pending: seq<Row>)
    requires PlanMade(w, artifacts, sources, plan, root) && pending != []
    requires Frontier(w, InSources(sources), artifacts, RowsOf(order), pending) && Indexed(w, rows, order)
    ensures Tolerates(w, InSources(sources), rows, order, pending[0]) && Obtainable(w, sources, pending[0].sha256)
  {
    hide Frontier, Exported, Indexed, RowOk, IsLeast, Admissible, MissingRows, Expand, SortedBy, Obtainable;
    FrontierRefused(w, InSources(sources), artifacts, RowsOf(order), pending, RowsOf(plan.descriptors));
    Tolerated(w, InSources(sources), rows, order, pending[0]);
    PlanObtains(w, artifacts, sources, plan, root, pending[0]);
  }

  lemma Start(w: World, sources: seq<string -> Stored>, artifacts: seq<Row>)
    ensures Frontier(w, InSources(sources), artifacts, RowsOf([]), artifacts)
    ensures Exported(w, sources, RowsOf([]), map[], map[], {}) && Indexed(w, map[], [])
  {
  }

  lemma ExportedMissing(w: World, sources: seq<string -> Stored>, R: set<Row>, objects: map<string, nat>,
                        root: map<string, Bytes>, missing: set<string>)
    requires Exported(w, sources, R, objects, root, missing)
    ensures missing == Digests(R) - objects.Keys
  {
  }

  /** The dictionary `rows` and the order in which its keys were inserted. */
  ghost predicate Indexed(w: World, rows: map<(string, string), Row>, order: seq<Row>) {
    && |rows| == |order| && DistinctKeys(order)
    && (forall k :: k in rows ==> Key(rows[k]) == k && rows[k] in order)
    && (forall r :: r in order ==> RowOk(w, r) && Key(r) in rows && rows[Key(r)] == r)
  }

  lemma IndexedKey(w: World, rows: map<(string, string), Row>, order: seq<Row>, row: Row)
    requires Indexed(w, rows, order) && Key(row) in rows && rows[Key(row)] == row
    ensures row in RowsOf(order)
  {
  }

  lemma IndexedAdd(w: World, rows: map<(string, string), Row>, order: seq<Row>, row: Row)
    requires Indexed(w, rows, order) && Key(row) !in rows && RowOk(w, row)
    ensures Indexed(w, rows[Key(row) := row], order + [row])
    ensures row !in RowsOf(order) && RowsOf(order + [row]) == RowsOf(order) + {row}
    ensures RowsOf(order + [row]) - {row} == RowsOf(order)
  {
  }

  lemma IndexedAdmissible(w: World, look: string -> Stored, roots: seq<Row>, rows: map<(string, string), Row>,
                          order: seq<Row>)
    requires Indexed(w, rows, order) && |order| <= MAX_ROWS && Frontier(w, look, roots, RowsOf(order), [])
    ensures DistinctKeys(order) && Admissible(w, look, RowsOf(order))
  {
    RowsSize(order);
  }

  lemma {:induction false} RowsSize(s: seq<Row>)
    ensures |RowsOf(s)| <= |s|
  {
    if s != [] {
      RowsSize(s[1..]);
      assert s == [s[0]] + s[1..];
      assert RowsOf(s) == {s[0]} + RowsOf(s[1..]);
    }
  }

  method FilterMissing(order: seq<Row>, missing: set<string>) returns (rows: seq<Row>)
    requires DistinctKeys(order)
    ensures DistinctKeys(rows) && forall r :: r in rows <==> r in order && r.sha256 in missing
  {
    rows := [];
    for n := 0 to |order|
      invariant DistinctKeys(rows)
      invariant forall r :: r in rows <==> r in order[..n] && r.sha256 in missing
    {
      if order[n].sha256 in missing {
        assert forall i :: 0 <= i < |rows| ==> rows[i] in order[..n];
        rows := rows + [order[n]];
      }
      assert order[..n + 1] == order[..n] + [order[n]];
    }
    assert order[..|order|] == order;
  }

  /** `selected` holds the earliest row of each digest among the first n, at the places `at`. */
  ghost predicate Firsts(s: seq<Row>, n: nat, selected: seq<Row>, at: seq<nat>, index: map<string, nat>)
    requires n <= |s|
  {
    && |at| == |selected| && (forall i :: 0 <= i < |at| ==> at[i] < n && selected[i] == s[at[i]])
    && (forall i, j :: 0 <= i < j < |at| ==> at[i] < at[j])
    && (forall i :: 0 <= i < |at| ==> selected[i].sha256 in index && index[selected[i].sha256] == i)
    && (forall d :: d in index ==> index[d] < |at| && selected[index[d]].sha256 == d)
    && (forall m :: 0 <= m < n ==> s[m].sha256 in index && at[index[s[m].sha256]] <= m)
  }

  lemma FirstsTake(s: seq<Row>, n: nat, selected: seq<Row>, at: seq<nat>, index: map<string, nat>)
    requires n < |s| && Firsts(s, n, selected, at, index)
    ensures s[n].sha256 in index ==> Firsts(s, n + 1, selected, at, index)
    ensures s[n].sha256 !in index ==> Firsts(s, n + 1, selected + [s[n]], at + [n], index[s[n].sha256 := |at|])
  {
  }

  /** setdefault over a list: the earliest row of each digest, in the order of the list. */
  method FirstPerDigest(s: seq<Row>) returns (selected: seq<Row>, ghost at: seq<nat>, ghost index: map<string, nat>)
    ensures Firsts(s, |s|, selected, at, index)
  {
    selected, at, index := [], [], map[];
    var seen: set<string> := {};
    for n := 0 to |s|
      invariant Firsts(s, n, selected, at, index) && seen == index.Keys
    {
      FirstsTake(s, n, selected, at, index);
      if s[n].sha256 !in seen {
        index := index[s[n].sha256 := |at|];
        selected, at, seen := selected + [s[n]], at + [n], seen + {s[n].sha256};
      }
    }
  }

  /** The tail of build_plan: filter, sort by the second key, keep the first row per digest. */
  method SelectMissing(order: seq<Row>, missing: set<string>) returns (selected: seq<Row>)
    requires DistinctKeys(order)
    ensures MissingRows(RowsOf(order), missing, selected)
  {
    hide Less, MetaLess, DistinctKeys, SortedBy;
    var rows := FilterMissing(order, missing);
    var sorted := Sort(true, rows);
    assert forall r :: r in sorted <==> r in RowsOf(sorted);
    assert forall r :: r in rows <==> r in RowsOf(rows);
    ghost var at, index;
    selected, at, index := FirstPerDigest(sorted);
    SubsequenceSorted(sorted, selected, at);
    FirstsCover(RowsOf(order), missing, sorted, selected, at, index);
  }

  lemma FirstsCover(R: set<Row>, missing: set<string>, sorted: seq<Row>, selected: seq<Row>, at: seq<nat>, index: map<string, nat>)
    requires SortedBy(true, sorted) && SortedBy(true, selected) && forall r :: r in sorted <==> r in R && r.sha256 in missing
    requires Firsts(sorted, |sorted|, selected, at, index)
    ensures MissingRows(R, missing, selected)
  {
  }

  lemma SubsequenceSorted(s: seq<Row>, t: seq<Row>, at: seq<nat>)
    requires SortedBy(true, s) && |at| == |t|
    requires forall i :: 0 <= i < |at| ==> at[i] < |s| && t[i] == s[at[i]]
    requires forall i, j :: 0 <= i < j < |at| ==> at[i] < at[j]
    ensures SortedBy(true, t)
  {
  }

  // ----- verify_plan_authority -----

  /** The checker trusts the plan for what is an object and the bundle for its bytes. */
  function InBundle(plan: Plan, bundle: string -> Stored): string -> Stored {
    d => if d !in plan.objects then Absent else if bundle(d).Absent? then Refused else bundle(d)
  }

  ghost predicate Authorised(w: World, plan: Plan, artifacts: seq<Row>, bundle: string -> Stored, R: set<Row>) {
    && IsLeast(w, InBundle(plan, bundle), artifacts, R) && Admissible(w, InBundle(plan, bundle), R)
    && SortedBy(false, plan.descriptors) && RowsOf(plan.descriptors) == R
    && plan.objects.Keys <= Digests(R)
    && |plan.missing| <= MAX_ROWS && (forall r :: r in plan.missing ==> RowOk(w, r))
    && Digests(RowsOf(plan.missing)) == Digests(R) - plan.objects.Keys
  }

  /** Accepts exactly the plans whose descriptors are the admissible least fixpoint over the bundle's own bytes. */
  method VerifyPlanAuthority(w: World, plan: Plan, artifacts: seq<Row>, bundle: string -> Stored) returns (ok: bool)
    ensures ok <==> exists R :: Authorised(w, plan, artifacts, bundle, R)
  {
    hide Frontier, Indexed, RowOk, Expand, SortedBy, IsLeast, Admissible, Digests;
    var pending, order, rows := artifacts, [], map[];
    var look := InBundle(plan, bundle);
    StartVerify(w, look, artifacts);
    while pending != []
      invariant Frontier(w, look, artifacts, RowsOf(order), pending)
      invariant Indexed(w, rows, order) && |order| <= MAX_ROWS
      decreases MAX_ROWS - |order|, |pending|
    {
      var row := pending[0];
      forall R | Authorised(w, plan, artifacts, bundle, R) ensures Tolerates(w, look, rows, order, row) {
        FrontierRefused(w, look, artifacts, RowsOf(order), pending, R);
        Tolerated(w, look, rows, order, row);
      }
      if !RowOk(w, row) || (Key(row) in rows && rows[Key(row)] != row) {
        return false;
      }
      if Key(row) in rows {
        IndexedKey(w, rows, order, row);
        FrontierSkip(w, look, artifacts, RowsOf(order), pending);
        pending := pending[1..];
        continue;
      }
      if |order| == MAX_ROWS {
        return false;
      }
      var derived := Expand(w, look, row);
      if derived.None? {
        return false;
      }
      FrontierTake(w, look, artifacts, RowsOf(order), pending, derived.value);
      IndexedAdd(w, rows, order, row);
      rows, order := rows[Key(row) := row], order + [row];
      pending := pending[1..] + derived.value;
    }
    FrontierDone(w, look, artifacts, RowsOf(order));
    IndexedAdmissible(w, look, artifacts, rows, order);
    var sorted := Sort(false, order);
    ghost var R := RowsOf(order);
    forall L | Authorised(w, plan, artifacts, bundle, L) ensures L == R && sorted == plan.descriptors {
      LeastUnique(w, look, artifacts, L, R);
      SortedUnique(false, sorted, plan.descriptors);
    }
    ok := && plan.descriptors == sorted
          && plan.objects.Keys <= Digests(RowsOf(sorted))
          && |plan.missing| <= MAX_ROWS && (forall r :: r in plan.missing ==> RowOk(w, r))
          && Digests(RowsOf(plan.missing)) == Digests(RowsOf(sorted)) - plan.objects.Keys;
    assert ok ==> Authorised(w, plan, artifacts, bundle, R);
  }

  lemma StartVerify(w: World, look: string -> Stored, artifacts: seq<Row>)
    ensures Frontier(w, look, artifacts, RowsOf([]), artifacts) && Indexed(w, map[], [])
  {
  }

  lemma LeastUnique(w: World, look: string -> Stored, roots: seq<Row>, R: set<Row>, L: set<Row>)
    requires IsLeast(w, look, roots, R) && IsLeast(w, look, roots, L)
    ensures R == L
  {
  }

  /** None of the four refusals of the loop applies to the row. */
  ghost predicate Tolerates(w: World, look: string -> Stored, rows: map<(string, string), Row>, order: seq<Row>, row: Row) {
    && RowOk(w, row) && Expand(w, look, row).Some?
    && (Key(row) in rows ==> rows[Key(row)] == row)
    && (Key(row) !in rows ==> |order| < MAX_ROWS)
  }

  lemma Tolerated(w: World, look: string -> Stored, rows: map<(string, string), Row>, order: seq<Row>, row: Row)
    requires Indexed(w, rows, order) && RowOk(w, row) && Expand(w, look, row).Some?
    requires forall r :: r in RowsOf(order) && Key(r) == Key(row) ==> r == row
    requires |RowsOf(order) + {row}| <= MAX_ROWS
    ensures Tolerates(w, look, rows, order, row)
  {
    if Key(row) in rows {
      assert rows[Key(row)] in RowsOf(order);
    } else {
      assert row !in RowsOf(order);
      RowsExact(order);
    }
  }

  lemma {:induction false} RowsExact(s: seq<Row>)
    requires DistinctKeys(s)
    ensures |RowsOf(s)| == |s|
  {
    if s != [] {
      RowsExact(s[1..]);
      assert s == [s[0]] + s[1..];
      assert RowsOf(s) == {s[0]} + RowsOf(s[1..]);
      assert s[0] !in s[1..];
    }
  }

  // ----- The two agree -----

  /** A least fixpoint depends on the lookup only through the digests of its own rows. */
  lemma TransferLeast(w: World, look: string -> Stored, look': string -> Stored, roots: seq<Row>, R: set<Row>)
    requires IsLeast(w, look, roots, R) && Admissible(w, look, R)
    requires forall r :: r in R ==> Expand(w, look, r) == Expand(w, look', r)
    ensures IsLeast(w, look', roots, R) && Admissible(w, look', R)
  {
    hide Expand, RowOk;
    forall S: set<Row> | Contains(roots, S) && ClosedUnder(w, look', S) ensures R <= S {
      var T := S * R;
      forall r, q | r in T && Expand(w, look, r).Some? && q in Expand(w, look, r).value ensures q in T {
      }
      assert Contains(roots, T) && ClosedUnder(w, look, T);
    }
  }

  /** The exported files as a directory. */
  function Directory(root: map<string, Bytes>): string -> Stored {
    d => if d in root then Held(root[d]) else Absent
  }

  /** Whatever build_plan returns, verify_plan_authority accepts from the files it exported. */
  lemma PlanIsAuthorised(w: World, artifacts: seq<Row>, sources: seq<string -> Stored>, plan: Plan, root: map<string, Bytes>)
    requires PlanMade(w, artifacts, sources, plan, root)
    ensures Authorised(w, plan, artifacts, Directory(root), RowsOf(plan.descriptors))
    ensures plan.objects.Keys !! Digests(RowsOf(plan.missing))
    ensures plan.objects.Keys + Digests(RowsOf(plan.missing)) == Digests(RowsOf(plan.descriptors))
  {
    hide RowOk, SortedBy, IsLeast, MetaLess;
    var R := RowsOf(plan.descriptors);
    var look, look' := InSources(sources), InBundle(plan, Directory(root));
    forall r | r in R ensures Expand(w, look, r) == Expand(w, look', r) {
      assert r.sha256 in Digests(R);
    }
    TransferLeast(w, look, look', artifacts, R);
    MissingDigests(R, Digests(R) - plan.objects.Keys, plan.missing);
    SubsetSize(RowsOf(plan.missing), R);
    MissingCount(plan.missing);
  }

  lemma MissingDigests(R: set<Row>, missing: set<string>, rows: seq<Row>)
    requires MissingRows(R, missing, rows) && missing <= Digests(R)
    ensures Digests(RowsOf(rows)) == missing && RowsOf(rows) <= R
  {
  }

  lemma {:induction false} MissingCount(s: seq<Row>)
    requires forall i, j :: 0 <= i < j < |s| ==> s[i].sha256 != s[j].sha256
    ensures |RowsOf(s)| == |s|
  {
    if s != [] {
      MissingCount(s[1..]);
      assert s == [s[0]] + s[1..];
      assert RowsOf(s) == {s[0]} + RowsOf(s[1..]);
      assert s[0] !in s[1..];
    }
  }

  /** End to end. */
  method PlanThenVerify(w: World, artifacts: seq<Row>, sources: seq<string -> Stored>) returns (planned: bool, accepted: bool)
    ensures planned ==> accepted
  {
    var plan, root, stopped := BuildPlan(w, artifacts, sources);
    planned, accepted := plan.Some?, false;
    if planned {
      PlanIsAuthorised(w, artifacts, sources, plan.value, root);
      accepted := VerifyPlanAuthority(w, plan.value, artifacts, Directory(root));
    }
  }

  // ----- More sources -----

  /** SHA-256 as it is relied on: equal digests mean equal bytes. */
  ghost predicate CollisionFree(w: World) { forall a, b :: w.hash(a) == w.hash(b) ==> a == b }

  lemma {:induction false} FirstAbsent(sources: seq<string -> Stored>, d: string)
    ensures First(sources, d).Absent? <==> forall i :: 0 <= i < |sources| ==> sources[i](d).Absent?
  {
    if sources != [] {
      FirstAbsent(sources[1..], d);
      assert sources == [sources[0]] + sources[1..];
    }
  }

  /** The same sources and others, in any order. */
  ghost predicate Includes(more: seq<string -> Stored>, sources: seq<string -> Stored>) {
    forall i :: 0 <= i < |sources| ==> exists j :: 0 <= j < |more| && more[j] == sources[i]
  }

  lemma StillHeld(sources: seq<string -> Stored>, more: seq<string -> Stored>, d: string)
    requires Includes(more, sources) && !First(sources, d).Absent?
    ensures !First(more, d).Absent?
  {
    FirstAbsent(sources, d);
    FirstAbsent(more, d);
    var i :| 0 <= i < |sources| && !sources[i](d).Absent?;
    var j :| 0 <= j < |more| && more[j] == sources[i];
  }

  /** A row that both can read expands to the same rows. */
  lemma SameExpansion(w: World, sources: seq<string -> Stored>, more: seq<string -> Stored>, r: Row)
    requires CollisionFree(w) && Includes(more, sources)
    requires Expand(w, InSources(sources), r).Some? && Expand(w, InSources(more), r).Some?
    ensures First(sources, r.sha256).Absent? || !IsSourceJson(r) || Expand(w, InSources(sources), r) == Expand(w, InSources(more), r)
  {
    if IsSourceJson(r) && !First(sources, r.sha256).Absent? {
      StillHeld(sources, more, r.sha256);
    }
  }

  /**
    With other sources added anywhere, no descriptor and no object is lost, and what any of them
    holds is not missing.
  */
  lemma MoreSources(w: World, artifacts: seq<Row>, sources: seq<string -> Stored>, more: seq<string -> Stored>,
                    plan: Plan, root: map<string, Bytes>, plan': Plan, root': map<string, Bytes>)
    requires CollisionFree(w) && Includes(more, sources)
    requires PlanMade(w, artifacts, sources, plan, root) && PlanMade(w, artifacts, more, plan', root')
    ensures RowsOf(plan.descriptors) <= RowsOf(plan'.descriptors)
    ensures forall d :: d in root ==> d in root' && root'[d] == root[d]
    ensures forall r, i :: r in plan'.missing && 0 <= i < |more| ==> more[i](r.sha256).Absent?
  {
    hide RowOk, SortedBy, MetaLess, CollisionFree;
    var R, R' := RowsOf(plan.descriptors), RowsOf(plan'.descriptors);
    var look, look' := InSources(sources), InSources(more);
    forall r, q | r in R' && Expand(w, look, r).Some? && q in Expand(w, look, r).value ensures q in R' {
      SameExpansion(w, sources, more, r);
      assert q in Expand(w, look', r).value;
    }
    assert ClosedUnder(w, look, R');
    forall d | d in root ensures d in root' && root'[d] == root[d] {
      KeptObject(w, sources, more, R, R', plan.objects, root, plan'.objects, root', d);
    }
    forall r, i | r in plan'.missing && 0 <= i < |more| ensures more[i](r.sha256).Absent? {
      assert r.sha256 in Digests(R') - plan'.objects.Keys;
      FirstAbsent(more, r.sha256);
    }
  }

  lemma KeptObject(w: World, sources: seq<string -> Stored>, more: seq<string -> Stored>, R: set<Row>, R': set<Row>,
                   objects: map<string, nat>, root: map<string, Bytes>, objects': map<string, nat>, root': map<string, Bytes>, d: string)
    requires CollisionFree(w) && Includes(more, sources) && R <= R' && d in root
    requires Exported(w, sources, R, objects, root, Digests(R) - objects.Keys)
    requires Exported(w, more, R', objects', root', Digests(R') - objects'.Keys)
    ensures d in root' && root'[d] == root[d]
  {
    StillHeld(sources, more, d);
    assert d in Digests(R);
    var r :| r in R && r.sha256 == d;
    assert d in Digests(R');
  }

  // ----- selected_shard -----

  function Cut(n: int, i: int): int { if i < n then i else n }

  /** rows[index * size : (index + 1) * size] */
  function Shard(rows: seq<Row>, index: nat, size: nat): seq<Row> {
    var n := |rows|;
    assert index * size <= (index + 1) * size;
    rows[Cut(n, index * size)..Cut(n, (index + 1) * size)]
  }

  ghost predicate ShardAdmitted(w: World, plan: Plan, index: int, size: int) {
    && 0 <= index < MAX_ROWS && 1 <= size <= MAX_DOWNLOADS && |plan.missing| <= MAX_ROWS
    && |RowsOf(plan.descriptors)| <= MAX_ROWS && (forall r :: r in plan.descriptors ==> RowOk(w, r))
    && (forall r :: r in plan.missing ==> RowOk(w, r) && r in plan.descriptors && r.sha256 !in plan.objects)
    && (forall i, j :: 0 <= i < j < |plan.missing| ==> plan.missing[i].sha256 != plan.missing[j].sha256)
    && Shard(plan.missing, index, size) != []
  }

  method SelectedShard(w: World, plan: Plan, index: int, size: int) returns (r: Option<seq<Row>>)
    ensures r.Some? <==> ShardAdmitted(w, plan, index, size)
    ensures r.Some? ==> r.value == Shard(plan.missing, index, size)
  {
    hide RowOk;
    if !(0 <= index < MAX_ROWS && 1 <= size <= MAX_DOWNLOADS) || |plan.missing| > MAX_ROWS {
      return None;
    }
    var descriptors := RowsOf(plan.descriptors);
    if (exists q :: q in plan.descriptors && !RowOk(w, q)) || |descriptors| > MAX_ROWS {
      return None;
    }
    var digests: set<string> := {};
    for n := 0 to |plan.missing|
      invariant forall d :: d in digests <==> exists i :: 0 <= i < n && plan.missing[i].sha256 == d
      invariant forall i :: 0 <= i < n ==> RowOk(w, plan.missing[i]) && plan.missing[i] in plan.descriptors
                                           && plan.missing[i].sha256 !in plan.objects
      invariant forall i, j :: 0 <= i < j < n ==> plan.missing[i].sha256 != plan.missing[j].sha256
    {
      var row := plan.missing[n];
      if !RowOk(w, row) || row !in descriptors || row.sha256 in digests || row.sha256 in plan.objects {
        assert row in plan.missing;
        return None;
      }
      digests := digests + {row.sha256};
    }
    var result := Shard(plan.missing, index, size);
    return if result == [] then None else Some(result);
  }

  /** The first `count` shards, one after the other. */
  function Joined(rows: seq<Row>, size: nat, count: nat): seq<Row> {
    if count == 0 then [] else Joined(rows, size, count - 1) + Shard(rows, count - 1, size)
  }

  lemma {:induction false} JoinedPrefix(rows: seq<Row>, size: nat, count: nat)
    ensures Joined(rows, size, count) == rows[..Cut(|rows|, count * size)]
  {
    if count > 0 {
      JoinedPrefix(rows, size, count - 1);
      assert (count - 1) * size <= count * size;
    }
  }

  /**
    For every admitted shard size, shards 0, 1, 2, ... of a built plan are admitted until the rows run
    out and refused afterwards; together they are the missing list, each row once and in order.
  */
  lemma ShardsCover(w: World, artifacts: seq<Row>, sources: seq<string -> Stored>, plan: Plan, root: map<string, Bytes>,
                    size: nat, count: nat)
    requires PlanMade(w, artifacts, sources, plan, root) && 1 <= size <= MAX_DOWNLOADS
    requires (count as int - 1) * size < |plan.missing| <= count * size
    ensures forall i: nat :: ShardAdmitted(w, plan, i, size) <==> i < count
    ensures Joined(plan.missing, size, count) == plan.missing
    ensures forall i, j :: 0 <= i < j < |plan.missing| ==> plan.missing[i].sha256 != plan.missing[j].sha256
  {
    hide SortedBy, IsLeast, RowOk, MetaLess, Expand;
    PlanIsAuthorised(w, artifacts, sources, plan, root);
    JoinedPrefix(plan.missing, size, count);
    assert plan.missing[..|plan.missing|] == plan.missing;
    forall i: nat ensures ShardAdmitted(w, plan, i, size) <==> i < count {
      ShardNonempty(plan.missing, i, size, count);
      assert forall r :: r in plan.missing ==> r in RowsOf(plan.descriptors);
      assert i < count ==> i < MAX_ROWS;
    }
  }

  lemma MulMono(a: int, b: int, c: nat)
    requires a <= b
    ensures a * c <= b * c && (a + 1) * c == a * c + c
  {
  }

  lemma ShardStart(n: nat, i: nat, size: nat, count: nat)
    requires size >= 1 && (count as int - 1) * size < n <= count * size
    ensures i * size < n <==> i < count
  {
  }

  lemma ShardNonempty(rows: seq<Row>, i: nat, size: nat, count: nat)
    requires size >= 1 && (count as int - 1) * size < |rows| <= count * size
    ensures Shard(rows, i, size) != [] <==> i < count
    ensures count <= |rows|
  {
    MulMono(i, i, size);
    ShardStart(|rows|, i, size, count);
    if count > 0 {
      assert count - 1 <= (count - 1) * size by { MulMono(1, size, count - 1); }
    }
  }
}
