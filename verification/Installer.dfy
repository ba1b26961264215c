/**
  The ownership-recorded installer of delivery/install.py.

  Paths are lists of parts.  A write replaces its path or fails without effect, and so does an
  unlink; which of them fail is left open.  Other programs may change anything between two calls,
  not during one: the locks are not modelled.  JSON and SHA-256 are function values.
*/
module Installer {

  import opened Basics
  import RuntimeClosure
  import RuntimeAssembly

  type Path = seq<string>

  const MAX_FILES: nat := 256
  const MAX_RECORD: nat := 8 * 1024 * 1024
  const MAX_OWNED: nat := 128 * 1024 * 1024
  const PRIVATE: nat := 0x180     // 0600
  const PLAIN: nat := 0x1a4       // 0644
  const PROGRAM: nat := 0x1ed     // 0755
  const BINARIES: seq<string> := ["omux", "omuxd", "oauth-mux", "omux-native-host", "git-credential-omux"]

  datatype Node = File(bytes: Bytes, mode: nat) | Other

  datatype Entry = Entry(path: Path, sha256: string, mode: nat)

  /** `rest` stands for the fields that only travel with the record. */
  datatype Record = Record(schemaVersion: int, prefix: Path, userService: Option<Path>, files: seq<Entry>, rest: string)

  datatype World = World(digest: Bytes -> string, json: Record -> Bytes, decode: Bytes -> Option<Record>)

  ghost predicate JsonInverse(w: World) { forall r :: w.decode(w.json(r)) == Some(r) }

  type Disk = map<Path, Node>

  // ----- Records -----

  predicate NameChar(c: char) {
    'A' <= c <= 'Z' || 'a' <= c <= 'z' || '0' <= c <= '9' || c == '_' || c == '.' || c == '+' || c == '-'
  }

  predicate NameOk(s: string) { s != "" && forall i :: 0 <= i < |s| ==> NameChar(s[i]) }

  /** The paths of a portable runtime, relative to the prefix. */
  predicate RuntimePath(p: Path) {
    || (|p| == 4 && p[..3] == ["lib", "omux", "lib"] && NameOk(p[3]))
    || p == ["lib", "omux", "libexec", "omux.bin"] || p == ["lib", "omux", "libexec", "omuxd.bin"]
    || p == ["lib", "omux", "share", "ca-bundle.crt"]
    || (|p| == 5 && p[..4] == ["lib", "omux", "qt", "lib"] && NameOk(p[4]))
    || p == ["lib", "omux", "qt", "libexec", "omux-control.bin"] || p == ["lib", "omux", "qt", "libexec", "qt.conf"]
    || (|p| == 6 && p[..5] == ["lib", "omux", "qt", "plugins", "platforms"] && EndsWith(p[5], ".so") && |p[5]| > 3
        && NameOk(p[5][..|p[5]| - 3]))
  }

  predicate Absolute(p: Path) { ".." !in p }

  predicate Managed(prefix: Path, service: Option<Path>, p: Path) {
    || (exists i :: 0 <= i < |BINARIES| && p == prefix + ["bin", BINARIES[i]])
    || p == prefix + ["bin", "omux-control"]
    || service == Some(p)
    || (prefix <= p && RuntimePath(p[|prefix|..]))
  }

  predicate ModeOk(mode: nat) { mode == PRIVATE || mode == PLAIN || mode == PROGRAM }

  predicate Distinct(files: seq<Entry>) {
    forall i, j :: 0 <= i < j < |files| ==> files[i].path != files[j].path
  }

  predicate RecordOk(prefix: Path, r: Record) {
    && r.schemaVersion == 1 && r.prefix == prefix && |r.files| <= MAX_FILES && Distinct(r.files)
    && forall e :: e in r.files ==> Managed(prefix, r.userService, e.path) && ModeOk(e.mode) && Absolute(e.path)
  }

  datatype Reading = Absent | Refused | Have(record: Record)

  function ReadRecord(w: World, prefix: Path, at: Path, fs: Disk): Reading {
    if at !in fs then Absent
    else if fs[at].Other? || fs[at].mode != PRIVATE || |fs[at].bytes| > MAX_RECORD then Refused
    else
      match w.decode(fs[at].bytes)
      case None => Refused
      case Some(r) => if RecordOk(prefix, r) then Have(r) else Refused
  }

  /** What the record lists at the start of a call. */
  function RecordedIn(w: World, prefix: Path, at: Path, fs: Disk): seq<Entry> {
    var reading := ReadRecord(w, prefix, at, fs);
    if reading.Have? then reading.record.files else []
  }

  ghost predicate OwnAs(w: World, prefix: Path, at: Path, node: Node, r: Record) {
    RecordOk(prefix, r) && node == File(w.json(r), PRIVATE) && forall e :: e in r.files ==> e.path != at
  }

  /** The record, if there is one, is one the tool wrote. */
  ghost predicate OwnRecord(w: World, prefix: Path, at: Path, fs: Disk) {
    at in fs ==> exists r :: OwnAs(w, prefix, at, fs[at], r)
  }

  /** The tool reads its own record back, exactly when it is not too long to be read at all. */
  lemma OwnRecordRead(w: World, prefix: Path, at: Path, fs: Disk, r: Record)
    requires JsonInverse(w) && at in fs && OwnAs(w, prefix, at, fs[at], r)
    ensures ReadRecord(w, prefix, at, fs) == if |w.json(r)| <= MAX_RECORD then Have(r) else Refused
  {
  }

  /** The encoder writes out the fields that only travel with the record. */
  ghost predicate WritesRest(w: World) { forall r :: |w.json(r)| >= |r.rest| }

  // ----- What is installed -----

  datatype Destination = Destination(path: Path, bytes: Bytes, mode: nat)

  /** One member of a verified bundle. */
  datatype Member = Member(name: Path, bytes: Bytes, mode: nat)

  /** What verify_bundle promises of the members. */
  predicate Verified(members: seq<Member>) {
    && |members| <= MAX_FILES
    && (exists m :: m in members && m.name == ["release-manifest.json"])
    && (forall n :: n in BINARIES ==> Named(members, ["bin", n]).Some?)
    && (forall m :: m in members ==> (m.mode == PLAIN || m.mode == PROGRAM) && ".." !in m.name)
    && (forall m :: m in members && ["lib", "omux"] <= m.name ==> RuntimePath(m.name))
    && (forall i, j :: 0 <= i < j < |members| ==> members[i].name != members[j].name)
  }

  function Named(members: seq<Member>, name: Path): Option<Member> {
    if members == [] then None else if members[0].name == name then Some(members[0]) else Named(members[1..], name)
  }

  /** The launchers that the bundle holds, in this order. */
  function Programs(prefix: Path, members: seq<Member>, names: seq<string>): seq<Destination> {
    if names == [] then []
    else
      (match Named(members, ["bin", names[0]])
       case None => []
       case Some(m) => [Destination(prefix + ["bin", names[0]], m.bytes, PROGRAM)])
      + Programs(prefix, members, names[1..])
  }

  function RuntimeFiles(prefix: Path, members: seq<Member>): seq<Destination> {
    if members == [] then []
    else (if ["lib", "omux"] <= members[0].name then [Destination(prefix + members[0].name, members[0].bytes, members[0].mode)] else [])
         + RuntimeFiles(prefix, members[1..])
  }

  /** The members come sorted; the service file is written out by the caller. */
  function Planned(prefix: Path, members: seq<Member>, service: Option<(Path, Bytes)>): seq<Destination> {
    Programs(prefix, members, BINARIES + ["omux-control"]) + RuntimeFiles(prefix, members)
    + (match service case None => [] case Some(s) => [Destination(s.0, s.1, PRIVATE)])
  }

  /** One is the other, or a directory on the way to it. */
  predicate Collide(a: Path, b: Path) { a <= b || b <= a }

  predicate Layout(planned: seq<Destination>, controls: seq<Path>) {
    && (forall i, j :: 0 <= i < j < |planned| ==> !Collide(planned[i].path, planned[j].path))
    && (forall d, c :: d in planned && c in controls ==> !Collide(d.path, c))
  }

  function EntryOf(w: World, d: Destination): Entry { Entry(d.path, w.digest(d.bytes), d.mode) }

  function Entries(w: World, planned: seq<Destination>): (r: seq<Entry>)
    ensures |r| == |planned| && forall i :: 0 <= i < |planned| ==> r[i] == EntryOf(w, planned[i])
  {
    seq(|planned|, i requires 0 <= i < |planned| => EntryOf(w, planned[i]))
  }

  // ----- Every record of an installation is well formed -----

  lemma {:induction false} NamedIs(members: seq<Member>, name: Path)
    requires Named(members, name).Some?
    ensures Named(members, name).value in members && Named(members, name).value.name == name
  {
    if members[0].name != name {
      NamedIs(members[1..], name);
    }
  }

  /** Where a planned file comes from. */
  predicate FromMember(prefix: Path, members: seq<Member>, d: Destination) {
    exists m :: m in members && d.path == prefix + m.name && m.name != ["release-manifest.json"]
  }

  lemma {:induction false} ProgramsAre(prefix: Path, members: seq<Member>, names: seq<string>)
    ensures forall d :: d in Programs(prefix, members, names) ==>
              d.mode == PROGRAM && FromMember(prefix, members, d) && exists n :: n in names && d.path == prefix + ["bin", n]
  {
    if names != [] {
      ProgramsAre(prefix, members, names[1..]);
      var m := Named(members, ["bin", names[0]]);
      if m.Some? {
        NamedIs(members, ["bin", names[0]]);
        var d := Destination(prefix + ["bin", names[0]], m.value.bytes, PROGRAM);
        assert FromMember(prefix, members, d);
      }
    }
  }

  lemma {:induction false} RuntimeFilesAre(prefix: Path, members: seq<Member>)
    ensures forall d :: d in RuntimeFiles(prefix, members) ==>
              exists m :: m in members && ["lib", "omux"] <= m.name && d == Destination(prefix + m.name, m.bytes, m.mode)
  {
    if members != [] {
      RuntimeFilesAre(prefix, members[1..]);
    }
  }

  lemma PlannedManaged(prefix: Path, members: seq<Member>, service: Option<(Path, Bytes)>, d: Destination)
    requires Verified(members) && d in Planned(prefix, members, service) && Absolute(prefix) && (service.Some? ==> Absolute(service.value.0))
    ensures Managed(prefix, if service.Some? then Some(service.value.0) else None, d.path) && ModeOk(d.mode) && Absolute(d.path)
    ensures FromMember(prefix, members, d) || (service.Some? && d.path == service.value.0)
  {
    hide RuntimePath, Named;
    var programs, runtime := Programs(prefix, members, BINARIES + ["omux-control"]), RuntimeFiles(prefix, members);
    ProgramsAre(prefix, members, BINARIES + ["omux-control"]);
    RuntimeFilesAre(prefix, members);
    if d in programs {
      var n :| n in BINARIES + ["omux-control"] && d.path == prefix + ["bin", n];
      assert n in BINARIES ==> exists i :: 0 <= i < |BINARIES| && BINARIES[i] == n;
    } else if d in runtime {
      var m :| m in members && ["lib", "omux"] <= m.name && d == Destination(prefix + m.name, m.bytes, m.mode);
      assert d.path[|prefix|..] == m.name;
    }
  }

  lemma {:induction false} Pigeons(a: seq<Path>, b: seq<Path>)
    requires (forall i, j :: 0 <= i < j < |a| ==> a[i] != a[j]) && forall x :: x in a ==> x in b
    ensures |a| <= |b|
  {
    if a != [] {
      assert a[0] in b;
      var k :| 0 <= k < |b| && b[k] == a[0];
      var rest := b[..k] + b[k + 1..];
      forall x | x in a[1..] ensures x in rest {
        var i :| 0 <= i < |a[1..]| && a[1..][i] == x;
        assert a[i + 1] == x && x in b;
        var j :| 0 <= j < |b| && b[j] == x;
        assert if j < k then rest[j] == x else rest[j - 1] == x;
      }
      Pigeons(a[1..], rest);
    }
  }

  /** A bundle and a service never make more files than a record may list. */
  lemma PlannedFew(prefix: Path, members: seq<Member>, service: Option<(Path, Bytes)>)
    requires Verified(members) && Absolute(prefix) && (service.Some? ==> Absolute(service.value.0))
    requires Layout(Planned(prefix, members, service), [])
    ensures |Planned(prefix, members, service)| <= MAX_FILES
  {
    hide RuntimePath, Named, Planned, Managed, ModeOk;
    var planned := Planned(prefix, members, service);
    var k := ManifestAt(members);
    var others := members[..k] + members[k + 1..];
    var a := seq(|planned|, i requires 0 <= i < |planned| => planned[i].path);
    var b := seq(|others|, i requires 0 <= i < |others| => prefix + others[i].name) + if service.Some? then [service.value.0] else [];
    forall i, j | 0 <= i < j < |a| ensures a[i] != a[j] {
      assert !Collide(planned[i].path, planned[j].path);
    }
    forall x | x in a ensures x in b {
      var i :| 0 <= i < |a| && a[i] == x;
      PlannedManaged(prefix, members, service, planned[i]);
      if FromMember(prefix, members, planned[i]) {
        var m :| m in members && x == prefix + m.name && m.name != ["release-manifest.json"];
        var j :| 0 <= j < |members| && members[j] == m;
        assert others[if j < k then j else j - 1] == m;
        assert b[if j < k then j else j - 1] == x;
      } else {
        assert b[|others|] == x;
      }
    }
    Pigeons(a, b);
  }

  lemma ManifestAt(members: seq<Member>) returns (k: nat)
    requires Verified(members)
    ensures k < |members| && members[k].name == ["release-manifest.json"]
  {
    var m :| m in members && m.name == ["release-manifest.json"];
    k :| 0 <= k < |members| && members[k] == m;
  }

  lemma InstallRecordOk(w: World, prefix: Path, members: seq<Member>, service: Option<(Path, Bytes)>, controls: seq<Path>, rest: string)
    requires Verified(members) && Absolute(prefix) && (service.Some? ==> Absolute(service.value.0))
    requires Layout(Planned(prefix, members, service), controls)
    ensures RecordOk(prefix, Record(1, prefix, if service.Some? then Some(service.value.0) else None,
                                    Entries(w, Planned(prefix, members, service)), rest))
  {
    hide RuntimePath, Named, Planned, Managed, ModeOk, Verified;
    var planned := Planned(prefix, members, service);
    PlannedFew(prefix, members, service);
    var entries := Entries(w, planned);
    forall i, j | 0 <= i < j < |entries| ensures entries[i].path != entries[j].path {
      assert !Collide(planned[i].path, planned[j].path);
    }
    forall e | e in entries
      ensures Managed(prefix, if service.Some? then Some(service.value.0) else None, e.path) && ModeOk(e.mode) && Absolute(e.path)
    {
      var i :| 0 <= i < |entries| && entries[i] == e;
      PlannedManaged(prefix, members, service, planned[i]);
    }
  }

  // ----- The installation -----

  /** Presence and contents are the same except at these paths. */
  ghost predicate SameBut(a: Disk, b: Disk, paths: set<Path>) {
    forall p :: p !in paths ==> (p in a <==> p in b) && (p in a ==> a[p] == b[p])
  }

  function Paths(planned: seq<Destination>): set<Path> { set d | d in planned :: d.path }

  function Owned(files: seq<Entry>, p: Path): Option<Entry> {
    if files == [] then None else if files[0].path == p then Some(files[0]) else Owned(files[1..], p)
  }

  /** The file is there with the recorded mode and digest, and may be trusted and read. */
  predicate Matches(w: World, fs: Disk, distrusted: set<Path>, e: Entry) {
    && e.path in fs && e.path !in distrusted && fs[e.path].File? && fs[e.path].mode == e.mode
    && |fs[e.path].bytes| <= MAX_OWNED && w.digest(fs[e.path].bytes) == e.sha256
  }

  /** The path is recorded, and what is there is what was recorded. */
  ghost predicate OwnedAndMatching(w: World, fs: Disk, distrusted: set<Path>, files: seq<Entry>, p: Path) {
    exists e :: e in files && e.path == p && Matches(w, fs, distrusted, e)
  }

  /** Everything that was there before and changed was recorded and matched its record. */
  ghost predicate OnlyOwned(w: World, before: Disk, distrusted: set<Path>, files: seq<Entry>, at: Path, after: Disk) {
    forall p :: p in before && p != at && !(p in after && after[p] == before[p]) ==> OwnedAndMatching(w, before, distrusted, files, p)
  }

  lemma {:induction false} OwnedIs(files: seq<Entry>, p: Path)
    ensures Owned(files, p).Some? ==> Owned(files, p).value in files && Owned(files, p).value.path == p
    ensures Owned(files, p).None? ==> forall e :: e in files ==> e.path != p
  {
    if files != [] {
      OwnedIs(files[1..], p);
    }
  }

  /** Those of these paths that exist are recorded and unmodified. */
  ghost predicate TargetsOk(w: World, fs: Disk, distrusted: set<Path>, owned: seq<Entry>, paths: set<Path>) {
    forall p :: p in paths && p in fs ==> OwnedAndMatching(w, fs, distrusted, owned, p)
  }

  lemma {:induction false} OwnedUnique(files: seq<Entry>, i: nat)
    requires Distinct(files) && i < |files|
    ensures Owned(files, files[i].path) == Some(files[i])
  {
    if i > 0 {
      OwnedUnique(files[1..], i - 1);
    }
  }

  lemma NotMatching(w: World, fs: Disk, distrusted: set<Path>, files: seq<Entry>, p: Path)
    requires Distinct(files) && (Owned(files, p).None? || !Matches(w, fs, distrusted, Owned(files, p).value))
    ensures !OwnedAndMatching(w, fs, distrusted, files, p)
  {
    hide Matches, Owned;
    OwnedIs(files, p);
    forall e | e in files && e.path == p ensures Owned(files, p) == Some(e) {
      var i :| 0 <= i < |files| && files[i] == e;
      OwnedUnique(files, i);
    }
  }

  lemma {:induction false} ObsoleteHas(fs: Disk, files: seq<Entry>, planned: set<Path>, i: nat)
    requires i < |files| && files[i].path !in planned && files[i].path in fs
    ensures files[i].path in ObsoletePaths(fs, files, planned)
  {
    if i < |files| - 1 {
      ObsoleteHas(fs, files[..|files| - 1], planned, i);
    }
  }

  /** The disk with these files written. */
  function Written(fs: Disk, planned: seq<Destination>): Disk {
    if planned == [] then fs
    else
      var last := planned[|planned| - 1];
      Written(fs, planned[..|planned| - 1])[last.path := File(last.bytes, last.mode)]
  }

  function ObsoletePaths(fs: Disk, files: seq<Entry>, planned: set<Path>): seq<Path> {
    if files == [] then []
    else
      var last := files[|files| - 1];
      ObsoletePaths(fs, files[..|files| - 1], planned) + if last.path !in planned && last.path in fs then [last.path] else []
  }

  class Installation {
    const w: World
    const prefix: Path
    const stateDir: Path
    var fs: Disk
    /** Paths whose directory, owner or readability fails the checks. */
    var distrusted: set<Path>

    function At(): Path { stateDir + ["install.json"] }

    function Controls(): seq<Path> { [At(), stateDir + ["install.lock"], prefix + [".omux-install.lock"]] }

    constructor (w: World, prefix: Path, stateDir: Path, fs: Disk, distrusted: set<Path>)
      ensures this.w == w && this.prefix == prefix && this.stateDir == stateDir && this.fs == fs && this.distrusted == distrusted
    {
      this.w, this.prefix, this.stateDir, this.fs, this.distrusted := w, prefix, stateDir, fs, distrusted;
    }

    method Write(path: Path, bytes: Bytes, mode: nat) returns (ok: bool)
      modifies `fs
      ensures fs == if ok then old(fs)[path := File(bytes, mode)] else old(fs)
    {
      ok := *;
      if ok {
        fs := fs[path := File(bytes, mode)];
      }
    }

    method Unlink(path: Path) returns (ok: bool)
      modifies `fs
      ensures fs == if ok then old(fs) - {path} else old(fs)
      ensures ok ==> path in old(fs)
    {
      ok := *;
      ok := ok && path in fs;
      if ok {
        fs := fs - {path};
      }
    }

    /** Every planned path that exists is owned and unmodified. */
    method CheckTargets(planned: seq<Destination>, owned: seq<Entry>) returns (ok: bool)
      requires Distinct(owned)
      ensures ok <==> TargetsOk(w, fs, distrusted, owned, Paths(planned))
    {
      hide Matches, Owned;
      for i := 0 to |planned|
        invariant forall j :: 0 <= j < i && planned[j].path in fs ==> OwnedAndMatching(w, fs, distrusted, owned, planned[j].path)
      {
        if planned[i].path in fs {
          var e := Owned(owned, planned[i].path);
          OwnedIs(owned, planned[i].path);
          if e.None? || !Matches(w, fs, distrusted, e.value) {
            NotMatching(w, fs, distrusted, owned, planned[i].path);
            assert planned[i] in planned;
            return false;
          }
        }
      }
      return true;
    }

    /** The recorded paths that are no longer wanted; each must be unmodified. */
    method FindObsolete(planned: set<Path>, owned: seq<Entry>) returns (ok: bool, obsolete: seq<Path>)
      requires Distinct(owned)
      ensures ok ==> obsolete == ObsoletePaths(fs, owned, planned)
      ensures ok ==> forall p :: p in obsolete ==> p in fs && OwnedAndMatching(w, fs, distrusted, owned, p)
      ensures ok <==> TargetsOk(w, fs, distrusted, owned, Set(ObsoletePaths(fs, owned, planned)))
    {
      hide Matches;
      obsolete := [];
      for i := 0 to |owned|
        invariant obsolete == ObsoletePaths(fs, owned[..i], planned)
        invariant forall p :: p in obsolete ==> p in fs && OwnedAndMatching(w, fs, distrusted, owned, p)
      {
        var e := owned[i];
        assert owned[..i + 1][..i] == owned[..i] && e in owned;
        if e.path !in planned && e.path in fs {
          if !Matches(w, fs, distrusted, e) {
            OwnedUnique(owned, i);
            NotMatching(w, fs, distrusted, owned, e.path);
            ObsoleteHas(fs, owned, planned, i);
            return false, [];
          }
          obsolete := obsolete + [e.path];
        }
      }
      assert owned[..|owned|] == owned;
      ok := true;
    }

    /** Put back what was removed, then what was written, last first. */
    method Rollback(written: seq<Path>, removed: seq<Path>, originals: Disk, ghost before: Disk) returns (restored: bool)
      requires SameBut(fs, before, Set(written) + Set(removed))
      requires forall p :: p in removed ==> p in originals
      requires forall p :: p in written || p in removed ==> (p in originals <==> p in before) && (p in before ==> originals[p] == before[p])
      requires forall p :: p in originals ==> originals[p].File?
      modifies `fs
      ensures SameBut(fs, before, Set(written) + Set(removed))
      ensures restored ==> fs == before
    {
      for i := 0 to |removed|
        invariant SameBut(fs, before, Set(written) + Set(removed[i..]))
      {
        var p := removed[i];
        assert p in removed && removed[i..] == [p] + removed[i + 1..];
        var ok := Write(p, originals[p].bytes, originals[p].mode);
        if !ok {
          SameButMore(fs, before, Set(written) + Set(removed[i..]), Set(written) + Set(removed));
          return false;
        }
      }
      assert removed[|removed|..] == [];
      var n := |written|;
      while n > 0
        invariant 0 <= n <= |written| && SameBut(fs, before, Set(written[..n]))
      {
        n := n - 1;
        var p := written[n];
        assert p in written && written[..n + 1] == written[..n] + [p];
        var ok;
        if p in originals {
          ok := Write(p, originals[p].bytes, originals[p].mode);
        } else {
          ok := Unlink(p);
        }
        if !ok {
          SameButMore(fs, before, Set(written[..n + 1]), Set(written) + Set(removed));
          return false;
        }
      }
      assert written[..0] == [];
      SameEverywhere(fs, before);
      return true;
    }

    /** The planned files in order, as far as the writes succeed. */
    method WriteAll(planned: seq<Destination>) returns (written: seq<Path>)
      modifies `fs
      ensures |written| <= |planned| && fs == Written(old(fs), planned[..|written|]) && Set(written) == Paths(planned[..|written|])
    {
      written := [];
      for i := 0 to |planned|
        invariant |written| == i && Set(written) == Paths(planned[..i]) && fs == Written(old(fs), planned[..i])
      {
        var d := planned[i];
        assert planned[..i + 1][..i] == planned[..i] && planned[..i + 1] == planned[..i] + [d];
        var done := Write(d.path, d.bytes, d.mode);
        if !done {
          return;
        }
        PathsMore(planned[..i], d, written);
        written := written + [d.path];
      }
    }

    method RemoveAll(obsolete: seq<Path>) returns (removed: nat)
      modifies `fs
      ensures removed <= |obsolete| && fs == old(fs) - Set(obsolete[..removed])
    {
      removed := 0;
      for i := 0 to |obsolete|
        invariant removed == i && fs == old(fs) - Set(obsolete[..i])
      {
        assert obsolete[..i + 1] == obsolete[..i] + [obsolete[i]];
        var done := Unlink(obsolete[i]);
        if !done {
          return;
        }
        removed := removed + 1;
      }
    }

    /** Write everything, remove what is obsolete, record it; on a failure undo. */
    method Transact(planned: seq<Destination>, obsolete: seq<Path>, originals: Disk, record: Bytes) returns (ok: bool, restored: bool)
      requires forall p :: p in Paths(planned) || p in obsolete ==> (p in originals <==> p in fs) && (p in fs ==> originals[p] == fs[p])
      requires forall p :: p in obsolete ==> p in originals
      requires forall p :: p in originals ==> originals[p].File?
      modifies `fs
      ensures SameBut(fs, old(fs), Paths(planned) + Set(obsolete) + {At()})
      ensures ok ==> fs == (Written(old(fs), planned) - Set(obsolete))[At() := File(record, PRIVATE)]
      ensures !ok ==> SameBut(fs, old(fs), Paths(planned) + Set(obsolete))
      ensures !ok && restored ==> fs == old(fs)
    {
      hide Written, Paths;
      ghost var before := fs;
      ok, restored := false, false;
      var written := WriteAll(planned);
      WrittenSame(before, planned[..|written|]);
      PathsPrefix(planned, |written|);
      var removed := 0;
      if |written| == |planned| {
        assert planned[..|planned|] == planned;
        removed := RemoveAll(obsolete);
      }
      assert SameBut(fs, before, Set(written) + Set(obsolete[..removed]));
      SameButMore(fs, before, Set(written) + Set(obsolete[..removed]), Paths(planned) + Set(obsolete));
      if |written| == |planned| && removed == |obsolete| {
        assert obsolete[..|obsolete|] == obsolete;
        ok := Write(At(), record, PRIVATE);
      }
      if !ok {
        restored := Rollback(written, obsolete[..removed], originals, before);
        SameButMore(fs, before, Set(written) + Set(obsolete[..removed]), Paths(planned) + Set(obsolete));
      }
    }

    /** What an installation is refused for before anything is written. */
    ghost predicate Admissible(members: seq<Member>, service: Option<(Path, Bytes)>, before: Disk)
      reads `distrusted
    {
      var planned, reading := Planned(prefix, members, service), ReadRecord(w, prefix, At(), before);
      var owned := RecordedIn(w, prefix, At(), before);
      && Absolute(prefix) && Absolute(stateDir) && (service.Some? ==> Absolute(service.value.0)) && Layout(planned, Controls())
      && !reading.Refused? && (reading.Have? ==> reading.record.userService == if service.Some? then Some(service.value.0) else None)
      && TargetsOk(w, before, distrusted, owned, Paths(planned))
      && TargetsOk(w, before, distrusted, owned, Set(ObsoletePaths(before, owned, Paths(planned))))
    }

    method Install(members: seq<Member>, service: Option<(Path, Bytes)>, rest: string) returns (r: Outcome)
      requires Verified(members)
      modifies `fs
      ensures OnlyOwned(w, old(fs), distrusted, RecordedIn(w, prefix, At(), old(fs)), At(), fs)
      ensures r.Rejected? || r == Failed(true) ==> fs == old(fs)
      ensures r.Failed? ==> SameBut(fs, old(fs), Paths(Planned(prefix, members, service)) + Set(ObsoletePaths(old(fs), RecordedIn(w, prefix, At(), old(fs)), Paths(Planned(prefix, members, service)))))
      ensures r.Installed? ==>
                var planned := Planned(prefix, members, service);
                && fs == (Written(old(fs), planned) - Set(ObsoletePaths(old(fs), RecordedIn(w, prefix, At(), old(fs)), Paths(planned))))[At() := File(w.json(r.record), PRIVATE)]
                && r.record.files == Entries(w, planned) && OwnAs(w, prefix, At(), fs[At()], r.record)
      ensures !r.Rejected? <==> Admissible(members, service, old(fs))
    {
      hide Planned, Verified, RecordOk;
      var planned := Planned(prefix, members, service);
      if !Absolute(prefix) || !Absolute(stateDir) || (service.Some? && !Absolute(service.value.0)) || !Layout(planned, Controls()) {
        return Rejected;
      }
      var place := if service.Some? then Some(service.value.0) else None;
      var previous := ReadRecord(w, prefix, At(), fs);
      if previous.Refused? || (previous.Have? && previous.record.userService != place) {
        return Rejected;
      }
      var owned := if previous.Have? then previous.record.files else [];
      assert Distinct(owned) by { if previous.Have? { ReadDistinct(w, prefix, At(), fs); } }
      var fine := CheckTargets(planned, owned);
      if !fine {
        return Rejected;
      }
      var obsolete;
      fine, obsolete := FindObsolete(Paths(planned), owned);
      if !fine {
        return Rejected;
      }
      assert forall e :: e in owned ==> ModeOk(e.mode) by { OwnedModes(w, prefix, At(), fs); }
      var originals := Originals(fs, Paths(planned) + Set(obsolete));
      OriginalsExact(w, fs, distrusted, owned, Paths(planned) + Set(obsolete));
      var result := Record(1, prefix, place, Entries(w, planned), rest);
      var done, restored := Transact(planned, obsolete, originals, w.json(result));
      OnlyOwnedFrom(w, old(fs), distrusted, owned, At(), Paths(planned) + Set(obsolete), fs);
      if !done {
        return Failed(restored);
      }
      InstallRecordOk(w, prefix, members, service, Controls(), rest);
      assert forall e :: e in result.files ==> e.path != At() by { EntriesClear(w, planned, Controls(), At()); }
      return Installed(result);
    }

    /** Remove what matches its entry, keep the entries of what is there but does not. */
    method RemoveMatching(files: seq<Entry>) returns (ok: bool, kept: seq<Entry>)
      requires Distinct(files)
      modifies `fs
      ensures OnlyOwned(w, old(fs), distrusted, files, At(), fs)
      ensures ok ==> fs == old(fs) - Matching(w, old(fs), distrusted, files) && kept == Kept(w, old(fs), distrusted, files)
      ensures !ok ==> SameBut(fs, old(fs), Matching(w, old(fs), distrusted, files))
    {
      hide Matches, Matching, OnlyOwned, SameBut;
      kept := [];
      assert Matching(w, fs, distrusted, []) == {} by { MatchingNone(w, fs, distrusted); }
      assert files[..|files|] == files && files[..0] == [];
      for i := 0 to |files|
        invariant fs == old(fs) - Matching(w, old(fs), distrusted, files[..i]) && kept == Kept(w, old(fs), distrusted, files[..i])
      {
        var e := files[i];
        assert files[..i + 1][..i] == files[..i] && files[..i + 1] == files[..i] + [e];
        MatchingMore(w, old(fs), distrusted, files, i);
        if Matches(w, fs, distrusted, e) {
          var done := Unlink(e.path);
          if !done {
            RemovedSame(old(fs), Matching(w, old(fs), distrusted, files[..i]), Matching(w, old(fs), distrusted, files));
            MatchingOwned(w, old(fs), distrusted, files, At(), fs);
            return false, [];
          }
        } else if e.path in fs {
          kept := kept + [e];
        }
      }
      RemovedSame(old(fs), Matching(w, old(fs), distrusted, files), Matching(w, old(fs), distrusted, files));
      MatchingOwned(w, old(fs), distrusted, files, At(), fs);
      ok := true;
    }

    method Uninstall() returns (ok: bool)
      modifies `fs
      ensures OnlyOwned(w, old(fs), distrusted, RecordedIn(w, prefix, At(), old(fs)), At(), fs)
      ensures ReadRecord(w, prefix, At(), old(fs)).Absent? ==> ok && fs == old(fs)
      ensures ReadRecord(w, prefix, At(), old(fs)).Refused? ==> !ok && fs == old(fs)
      ensures ReadRecord(w, prefix, At(), old(fs)).Have? && ok ==>
                var record := ReadRecord(w, prefix, At(), old(fs)).record;
                var rest := old(fs) - Matching(w, old(fs), distrusted, record.files);
                var kept := Kept(w, old(fs), distrusted, record.files);
                && RecordOk(prefix, record.(files := kept))
                && fs == if kept != [] then rest[At() := File(w.json(record.(files := kept)), PRIVATE)] else rest - {At()}
      ensures ReadRecord(w, prefix, At(), old(fs)).Have? && !ok ==>
                SameBut(fs, old(fs), Matching(w, old(fs), distrusted, ReadRecord(w, prefix, At(), old(fs)).record.files))
    {
      hide Matching, Kept, Managed;
      var reading := ReadRecord(w, prefix, At(), fs);
      if reading.Absent? {
        return true;
      }
      if reading.Refused? {
        return false;
      }
      var record := reading.record;
      var kept;
      ok, kept := RemoveMatching(record.files);
      if !ok {
        return;
      }
      KeptRecord(w, prefix, old(fs), distrusted, record);
      if kept != [] {
        ok := Write(At(), w.json(record.(files := kept)), PRIVATE);
      } else {
        ok := Unlink(At());
      }
    }
  }

  /** Recorded paths whose file still is what was recorded. */
  function Matching(w: World, fs: Disk, distrusted: set<Path>, files: seq<Entry>): set<Path> {
    set e | e in files && Matches(w, fs, distrusted, e) :: e.path
  }

  /** The entries of files that are there but are not what was recorded. */
  function Kept(w: World, fs: Disk, distrusted: set<Path>, files: seq<Entry>): seq<Entry> {
    if files == [] then []
    else
      var last := files[|files| - 1];
      Kept(w, fs, distrusted, files[..|files| - 1]) + if last.path in fs && !Matches(w, fs, distrusted, last) then [last] else []
  }

  lemma MatchingNone(w: World, fs: Disk, distrusted: set<Path>)
    ensures Matching(w, fs, distrusted, []) == {}
  {
  }

  lemma RemovedSame(fs: Disk, some: set<Path>, all: set<Path>)
    requires some <= all
    ensures SameBut(fs - some, fs, all)
  {
  }

  lemma MatchingMore(w: World, fs: Disk, distrusted: set<Path>, files: seq<Entry>, i: nat)
    requires i < |files| && Distinct(files)
    ensures files[i].path !in Matching(w, fs, distrusted, files[..i])
    ensures Matching(w, fs, distrusted, files[..i + 1]) == Matching(w, fs, distrusted, files[..i]) + if Matches(w, fs, distrusted, files[i]) then {files[i].path} else {}
    ensures Matching(w, fs, distrusted, files[..i]) <= Matching(w, fs, distrusted, files)
    ensures Matches(w, fs - Matching(w, fs, distrusted, files[..i]), distrusted, files[i]) == Matches(w, fs, distrusted, files[i])
  {
  }

  lemma MatchingOwned(w: World, before: Disk, distrusted: set<Path>, files: seq<Entry>, at: Path, after: Disk)
    requires SameBut(after, before, Matching(w, before, distrusted, files))
    ensures OnlyOwned(w, before, distrusted, files, at, after)
  {
  }

  lemma {:induction false} KeptIs(w: World, fs: Disk, distrusted: set<Path>, files: seq<Entry>)
    requires Distinct(files)
    ensures Distinct(Kept(w, fs, distrusted, files)) && |Kept(w, fs, distrusted, files)| <= |files|
    ensures forall e :: e in Kept(w, fs, distrusted, files) <==> e in files && e.path in fs && !Matches(w, fs, distrusted, e)
  {
    hide Matches;
    if files != [] {
      var init, last := files[..|files| - 1], files[|files| - 1];
      assert files == init + [last];
      KeptIs(w, fs, distrusted, init);
      forall e | e in Kept(w, fs, distrusted, init) ensures e.path != last.path {
        var i :| 0 <= i < |init| && init[i] == e;
        assert files[i] == e;
      }
    }
  }

  lemma KeptRecord(w: World, prefix: Path, fs: Disk, distrusted: set<Path>, record: Record)
    requires RecordOk(prefix, record)
    ensures RecordOk(prefix, record.(files := Kept(w, fs, distrusted, record.files)))
  {
    hide Matches, Managed;
    KeptIs(w, fs, distrusted, record.files);
  }

  /** After an uninstall the record lists exactly the recorded files that are still there. */
  lemma KeptRemain(w: World, fs: Disk, distrusted: set<Path>, files: seq<Entry>, e: Entry)
    requires Distinct(files) && e in files
    ensures e in Kept(w, fs, distrusted, files) <==> e.path in fs - Matching(w, fs, distrusted, files)
  {
    KeptIs(w, fs, distrusted, files);
    if e.path in Matching(w, fs, distrusted, files) {
      var f :| f in files && Matches(w, fs, distrusted, f) && f.path == e.path;
      var i :| 0 <= i < |files| && files[i] == e;
      var j :| 0 <= j < |files| && files[j] == f;
      assert i == j;
    }
  }

  datatype Outcome = Rejected | Failed(restored: bool) | Installed(record: Record)

  /** Contents and permission bits of the files that are there. */
  function Originals(fs: Disk, paths: set<Path>): Disk {
    map p | p in paths && p in fs && fs[p].File? :: File(fs[p].bytes, fs[p].mode % 512)
  }

  lemma OwnedModes(w: World, prefix: Path, at: Path, fs: Disk)
    ensures var reading := ReadRecord(w, prefix, at, fs); reading.Have? ==> forall e :: e in reading.record.files ==> ModeOk(e.mode)
  {
  }

  lemma OriginalsExact(w: World, fs: Disk, distrusted: set<Path>, owned: seq<Entry>, paths: set<Path>)
    requires forall e :: e in owned ==> ModeOk(e.mode)
    requires forall p :: p in paths && p in fs ==> OwnedAndMatching(w, fs, distrusted, owned, p)
    ensures forall p :: p in paths ==> (p in Originals(fs, paths) <==> p in fs)
    ensures forall p :: p in paths && p in fs ==> Originals(fs, paths)[p] == fs[p]
  {
  }

  lemma OnlyOwnedFrom(w: World, before: Disk, distrusted: set<Path>, owned: seq<Entry>, at: Path, paths: set<Path>, after: Disk)
    requires SameBut(after, before, paths + {at})
    requires forall p :: p in paths && p in before ==> OwnedAndMatching(w, before, distrusted, owned, p)
    ensures OnlyOwned(w, before, distrusted, owned, at, after)
  {
  }

  lemma EntriesClear(w: World, planned: seq<Destination>, controls: seq<Path>, at: Path)
    requires Layout(planned, controls) && at in controls
    ensures forall e :: e in Entries(w, planned) ==> e.path != at
  {
  }

  function Set(paths: seq<Path>): set<Path> { set p | p in paths }

  lemma PathsMore(planned: seq<Destination>, d: Destination, written: seq<Path>)
    ensures Paths(planned + [d]) == Paths(planned) + {d.path} && Set(written + [d.path]) == Set(written) + {d.path}
  {
    forall p ensures p in Paths(planned + [d]) <==> p in Paths(planned) || p == d.path {
      assert forall e :: e in planned + [d] <==> e in planned || e == d;
    }
  }

  lemma SameButMore(a: Disk, b: Disk, some: set<Path>, more: set<Path>)
    requires SameBut(a, b, some) && some <= more
    ensures SameBut(a, b, more)
  {
  }

  lemma SameEverywhere(a: Disk, b: Disk)
    requires SameBut(a, b, {})
    ensures a == b
  {
  }

  lemma PathsPrefix(planned: seq<Destination>, i: nat)
    requires i <= |planned|
    ensures Paths(planned[..i]) <= Paths(planned)
  {
  }

  lemma {:induction false} WrittenSame(fs: Disk, planned: seq<Destination>)
    ensures SameBut(Written(fs, planned), fs, Paths(planned))
  {
    if planned != [] {
      WrittenSame(fs, planned[..|planned| - 1]);
      assert planned == planned[..|planned| - 1] + [planned[|planned| - 1]];
    }
  }

  // ----- Whole runs -----

  datatype Moment = Moment(fs: Disk, distrusted: set<Path>)

  datatype Op = DoInstall(members: seq<Member>, service: Option<(Path, Bytes)>, rest: string) | DoUninstall | Edit(to: Moment)

  lemma {:induction false} ObsoleteIn(fs: Disk, files: seq<Entry>, planned: set<Path>)
    ensures forall p :: p in ObsoletePaths(fs, files, planned) ==> exists e :: e in files && e.path == p
  {
    if files != [] {
      ObsoleteIn(fs, files[..|files| - 1], planned);
    }
  }

  /** No entry of the tool's own record is the record itself. */
  lemma OwnRecordClear(w: World, prefix: Path, at: Path, fs: Disk)
    requires JsonInverse(w) && OwnRecord(w, prefix, at, fs)
    ensures forall e :: e in RecordedIn(w, prefix, at, fs) ==> e.path != at
  {
  }

  lemma OwnKept(w: World, prefix: Path, at: Path, before: Disk, paths: set<Path>, after: Disk)
    requires OwnRecord(w, prefix, at, before) && SameBut(after, before, paths) && at !in paths
    ensures OwnRecord(w, prefix, at, after)
  {
  }

  /** A call keeps the record the tool's own. */
  ghost predicate CallOk(w: World, prefix: Path, at: Path, a: Moment, b: Moment) {
    && OnlyOwned(w, a.fs, a.distrusted, RecordedIn(w, prefix, at, a.fs), at, b.fs)
    && (OwnRecord(w, prefix, at, a.fs) ==> OwnRecord(w, prefix, at, b.fs))
  }

  method CallInstall(i: Installation, op: Op)
    requires op.DoInstall? && Verified(op.members) && JsonInverse(i.w)
    modifies i`fs
    ensures CallOk(i.w, i.prefix, i.At(), Moment(old(i.fs), i.distrusted), Moment(i.fs, i.distrusted))
  {
    hide RecordOk, Planned, Verified, JsonInverse, OnlyOwned, Written, Layout, ReadRecord, OwnAs;
    ghost var before := i.fs;
    var r := i.Install(op.members, op.service, op.rest);
    ghost var planned := Planned(i.prefix, op.members, op.service);
    ghost var files := RecordedIn(i.w, i.prefix, i.At(), before);
    if OwnRecord(i.w, i.prefix, i.At(), before) && r.Failed? {
      OwnRecordClear(i.w, i.prefix, i.At(), before);
      ObsoleteIn(before, files, Paths(planned));
      PlannedClear(planned, i.Controls(), i.At());
      OwnKept(i.w, i.prefix, i.At(), before, Paths(planned) + Set(ObsoletePaths(before, files, Paths(planned))), i.fs);
    }
  }

  lemma PlannedClear(planned: seq<Destination>, controls: seq<Path>, at: Path)
    requires Layout(planned, controls) && at in controls
    ensures at !in Paths(planned)
  {
  }

  method CallUninstall(i: Installation)
    requires JsonInverse(i.w)
    modifies i`fs
    ensures CallOk(i.w, i.prefix, i.At(), Moment(old(i.fs), i.distrusted), Moment(i.fs, i.distrusted))
  {
    hide RecordOk, JsonInverse, OnlyOwned, Matches;
    ghost var before := i.fs;
    var ok := i.Uninstall();
    ghost var reading := ReadRecord(i.w, i.prefix, i.At(), before);
    if OwnRecord(i.w, i.prefix, i.At(), before) && reading.Have? {
      ghost var files := reading.record.files;
      OwnRecordClear(i.w, i.prefix, i.At(), before);
      if !ok {
        OwnKept(i.w, i.prefix, i.At(), before, Matching(i.w, before, i.distrusted, files), i.fs);
      } else if Kept(i.w, before, i.distrusted, files) != [] {
        ghost var record := reading.record.(files := Kept(i.w, before, i.distrusted, files));
        KeptIs(i.w, before, i.distrusted, files) by { assert Distinct(files) by { ReadDistinct(i.w, i.prefix, i.At(), before); } }
        assert OwnAs(i.w, i.prefix, i.At(), i.fs[i.At()], record);
      }
    }
  }

  lemma ReadDistinct(w: World, prefix: Path, at: Path, fs: Disk)
    requires ReadRecord(w, prefix, at, fs).Have?
    ensures Distinct(ReadRecord(w, prefix, at, fs).record.files)
  {
  }

  /**
    In any run of installs, uninstalls and edits by others between them, each call changes or removes
    only files that its record lists and that still are what was recorded; and as long as the others
    leave the record alone, every record on the way is one the tool wrote.
  */
  method Run(i: Installation, ops: seq<Op>) returns (ghost trace: seq<Moment>)
    requires JsonInverse(i.w) && forall op :: op in ops && op.DoInstall? ==> Verified(op.members)
    modifies i
    ensures |trace| == |ops| + 1 && trace[0] == Moment(old(i.fs), old(i.distrusted))
    ensures forall k :: 0 <= k < |ops| && !ops[k].Edit? ==> CallOk(i.w, i.prefix, i.At(), trace[k], trace[k + 1])
    ensures forall k :: 0 <= k < |ops| && ops[k].Edit? ==> trace[k + 1] == ops[k].to
  {
    hide CallOk, Verified, JsonInverse;
    trace := [Moment(i.fs, i.distrusted)];
    for k := 0 to |ops|
      invariant |trace| == k + 1 && trace[0] == Moment(old(i.fs), old(i.distrusted)) && trace[k] == Moment(i.fs, i.distrusted)
      invariant forall j :: 0 <= j < k && !ops[j].Edit? ==> CallOk(i.w, i.prefix, i.At(), trace[j], trace[j + 1])
      invariant forall j :: 0 <= j < k && ops[j].Edit? ==> trace[j + 1] == ops[j].to
    {
      assert ops[k] in ops;
      match ops[k] {
        case DoInstall(_, _, _) => CallInstall(i, ops[k]);
        case DoUninstall => CallUninstall(i);
        case Edit(to) => i.fs, i.distrusted := to.fs, to.distrusted;
      }
      trace := trace + [Moment(i.fs, i.distrusted)];
    }
  }

  /** The record stays the tool's own along such a run, and is read back unless it is too long. */
  lemma {:induction false} RunKeepsRecord(w: World, prefix: Path, at: Path, ops: seq<Op>, trace: seq<Moment>, n: nat)
    requires JsonInverse(w) && |trace| == |ops| + 1 && n <= |ops| && OwnRecord(w, prefix, at, trace[0].fs)
    requires forall k :: 0 <= k < |ops| && !ops[k].Edit? ==> CallOk(w, prefix, at, trace[k], trace[k + 1])
    requires forall k :: 0 <= k < |ops| && ops[k].Edit? ==>
               (at in trace[k].fs <==> at in trace[k + 1].fs) && (at in trace[k].fs ==> trace[k].fs[at] == trace[k + 1].fs[at])
    ensures OwnRecord(w, prefix, at, trace[n].fs)
    ensures at in trace[n].fs ==> (ReadRecord(w, prefix, at, trace[n].fs).Have? <==> |trace[n].fs[at].bytes| <= MAX_RECORD)
  {
    hide OnlyOwned, RecordOk, JsonInverse;
    if n > 0 {
      RunKeepsRecord(w, prefix, at, ops, trace, n - 1);
      assert !ops[n - 1].Edit? ==> CallOk(w, prefix, at, trace[n - 1], trace[n]);
    }
    if at in trace[n].fs {
      var r :| OwnAs(w, prefix, at, trace[n].fs[at], r);
      OwnRecordRead(w, prefix, at, trace[n].fs, r);
    }
  }

  // ----- Installing and uninstalling -----

  lemma {:induction false} WrittenAt(fs: Disk, planned: seq<Destination>, i: nat)
    requires i < |planned| && forall j, k :: 0 <= j < k < |planned| ==> planned[j].path != planned[k].path
    ensures planned[i].path in Written(fs, planned) && Written(fs, planned)[planned[i].path] == File(planned[i].bytes, planned[i].mode)
  {
    var n := |planned| - 1;
    if i < n {
      WrittenAt(fs, planned[..n], i);
      assert planned[..n][i] == planned[i];
    }
  }

  /** The disk that an installation leaves. */
  ghost predicate InstalledAs(w: World, before: Disk, planned: seq<Destination>, obsolete: set<Path>, at: Path, r: Record, after: Disk) {
    && after == (Written(before, planned) - obsolete)[at := File(w.json(r), PRIVATE)]
    && r.files == Entries(w, planned) && obsolete !! Paths(planned) && Layout(planned, [at])
  }

  /**
    Uninstalling right after installing leaves nothing behind exactly when every installed file can be
    trusted and is short enough to be compared with its digest.
  */
  lemma InstallUninstall(w: World, before: Disk, planned: seq<Destination>, obsolete: set<Path>, at: Path, r: Record, after: Disk, distrusted: set<Path>)
    requires InstalledAs(w, before, planned, obsolete, at, r, after) && Distinct(r.files)
    ensures Kept(w, after, distrusted, r.files) == [] <==>
              forall d :: d in planned ==> d.path !in distrusted && |d.bytes| <= MAX_OWNED
    ensures Kept(w, after, distrusted, r.files) == [] ==> Matching(w, after, distrusted, r.files) == Paths(planned)
  {
    hide Matches, Matching, Kept, InstalledAs;
    assert |r.files| == |planned| by { assert r.files == Entries(w, planned) by { InstalledFiles(w, before, planned, obsolete, at, r, after); } }
    forall i | 0 <= i < |planned|
      ensures planned[i].path in after && r.files[i].path == planned[i].path
      ensures Matches(w, after, distrusted, r.files[i]) <==> planned[i].path !in distrusted && |planned[i].bytes| <= MAX_OWNED
    {
      InstalledMatches(w, before, planned, obsolete, at, r, after, distrusted, i);
    }
    AllMatching(w, after, distrusted, r.files, planned);
  }

  lemma {:induction false} ObsoleteApart(fs: Disk, files: seq<Entry>, planned: set<Path>)
    ensures Set(ObsoletePaths(fs, files, planned)) !! planned
  {
    if files != [] {
      ObsoleteApart(fs, files[..|files| - 1], planned);
    }
  }

  /** Taking away again what was written. */
  lemma Undone(before: Disk, planned: seq<Destination>, obsolete: set<Path>, at: Path, node: Node)
    ensures (Written(before, planned) - obsolete)[at := node] - Paths(planned) - {at} == before - Paths(planned) - obsolete - {at}
  {
    hide Written;
    WrittenSame(before, planned);
    var left, right := (Written(before, planned) - obsolete)[at := node] - Paths(planned) - {at}, before - Paths(planned) - obsolete - {at};
    assert forall p :: p in left <==> p in right;
  }

  /**
    The two calls, one after the other with nothing in between.  If the record is not too long to be
    read and both succeed, nothing of the installation and of what it replaced is left, and all else
    is as before, if and only if every installed file can be trusted and is short enough.
  */
  method InstallThenUninstall(i: Installation, members: seq<Member>, service: Option<(Path, Bytes)>, rest: string)
    returns (r: Outcome, ok: bool)
    requires Verified(members) && JsonInverse(i.w)
    modifies i`fs
    ensures var planned := Planned(i.prefix, members, service);
            var obsolete := Set(ObsoletePaths(old(i.fs), RecordedIn(i.w, i.prefix, i.At(), old(i.fs)), Paths(planned)));
            r.Installed? && |i.w.json(r.record)| <= MAX_RECORD && ok ==>
              (i.fs == old(i.fs) - Paths(planned) - obsolete - {i.At()} <==>
                 forall d :: d in planned ==> d.path !in i.distrusted && |d.bytes| <= MAX_OWNED)
    ensures r.Installed? && |i.w.json(r.record)| > MAX_RECORD ==> !ok
  {
    hide Planned, Verified, RecordOk, JsonInverse, OnlyOwned, Written, Matching, Kept, ObsoletePaths, Layout;
    ghost var before := i.fs;
    ghost var planned := Planned(i.prefix, members, service);
    ghost var obsolete := Set(ObsoletePaths(before, RecordedIn(i.w, i.prefix, i.At(), before), Paths(planned)));
    r := i.Install(members, service, rest);
    if !r.Installed? {
      return r, false;
    }
    ghost var after := i.fs;
    OwnRecordRead(i.w, i.prefix, i.At(), after, r.record);
    ok := i.Uninstall();
    if |i.w.json(r.record)| <= MAX_RECORD && ok {
      ObsoleteApart(before, RecordedIn(i.w, i.prefix, i.At(), before), Paths(planned));
      LayoutAt(planned, i.Controls(), i.At());
      ReadDistinct(i.w, i.prefix, i.At(), after);
      InstallUninstall(i.w, before, planned, obsolete, i.At(), r.record, after, i.distrusted);
      Undone(before, planned, obsolete, i.At(), after[i.At()]);
    }
  }

  lemma LayoutAt(planned: seq<Destination>, controls: seq<Path>, at: Path)
    requires Layout(planned, controls) && at in controls
    ensures Layout(planned, [at])
  {
  }

  // ----- A record that is written and never read again -----

  /** The smallest bundle: the manifest and the launchers. */
  function SmallBundle(): (ms: seq<Member>)
    ensures |ms| == |BINARIES| + 1 && ms[0] == Member(["release-manifest.json"], [], PLAIN)
    ensures forall i :: 0 < i < |ms| ==> ms[i] == Member(["bin", BINARIES[i - 1]], [], PROGRAM)
  {
    [Member(["release-manifest.json"], [], PLAIN)]
    + seq(|BINARIES|, i requires 0 <= i < |BINARIES| => Member(["bin", BINARIES[i]], [], PROGRAM))
  }

  lemma NamesDistinct()
    ensures |BINARIES| == 5
    ensures var names := BINARIES + ["omux-control"]; forall i, j :: 0 <= i < j < |names| ==> names[i] != names[j]
    ensures forall i :: 0 <= i < |BINARIES| ==> BINARIES[i] != ".."
  {
  }

  lemma SmallBundleOk()
    ensures Verified(SmallBundle()) && forall m :: m in SmallBundle() ==> !(["lib", "omux"] <= m.name)
  {
    NamesDistinct();
    hide RuntimePath, Named, BINARIES, SmallBundle;
    var ms := SmallBundle();
    assert ms[0].name == ["release-manifest.json"] && ms[0] in ms;
    forall n | n in BINARIES ensures Named(ms, ["bin", n]).Some? {
      var i :| 0 <= i < |BINARIES| && BINARIES[i] == n;
      assert ms[i + 1].name == ["bin", n];
      NamedThere(ms, i + 1);
    }
    forall m | m in ms ensures (m.mode == PLAIN || m.mode == PROGRAM) && ".." !in m.name && !(["lib", "omux"] <= m.name) {
      var i :| 0 <= i < |ms| && ms[i] == m;
      assert m.name[0] != "lib";
    }
    forall i, j | 0 <= i < j < |ms| ensures ms[i].name != ms[j].name {
      assert BINARIES[j - 1] == (BINARIES + ["omux-control"])[j - 1];
      if i > 0 {
        assert BINARIES[i - 1] == (BINARIES + ["omux-control"])[i - 1];
        assert ms[i].name[1] != ms[j].name[1];
      } else {
        assert |ms[i].name| == 1 && |ms[j].name| == 2;
      }
    }
  }

  lemma {:induction false} NamedThere(members: seq<Member>, i: nat)
    requires i < |members|
    ensures Named(members, members[i].name).Some?
  {
    if members[0].name != members[i].name {
      NamedThere(members[1..], i - 1);
    }
  }

  lemma {:induction false} ProgramsDistinct(prefix: Path, members: seq<Member>, names: seq<string>)
    requires forall i, j :: 0 <= i < j < |names| ==> names[i] != names[j]
    ensures forall i, j :: 0 <= i < j < |Programs(prefix, members, names)| ==> Programs(prefix, members, names)[i].path != Programs(prefix, members, names)[j].path
  {
    if names != [] {
      ProgramsDistinct(prefix, members, names[1..]);
      ProgramsAre(prefix, members, names[1..]);
      var rest := Programs(prefix, members, names[1..]);
      forall j | 0 <= j < |rest| ensures rest[j].path != prefix + ["bin", names[0]] {
        assert rest[j] in rest;
        var n :| n in names[1..] && rest[j].path == prefix + ["bin", n];
        assert (prefix + ["bin", n])[|prefix| + 1] == n;
      }
    }
  }

  lemma SmallLayout()
    ensures Layout(Planned(["opt"], SmallBundle(), None), [["var", "install.json"]])
  {
    SmallBundleOk();
    NamesDistinct();
    var ms, names := SmallBundle(), BINARIES + ["omux-control"];
    NoRuntime(["opt"], ms);
    ProgramsDistinct(["opt"], ms, names);
    ProgramsAre(["opt"], ms, names);
    hide Programs, RuntimeFiles, SmallBundle, BINARIES;
    var planned := Planned(["opt"], ms, None);
    assert planned == Programs(["opt"], ms, names);
    ProgramsLayout(planned, names);
  }

  lemma NoRuntime(prefix: Path, members: seq<Member>)
    requires forall m :: m in members ==> !(["lib", "omux"] <= m.name)
    ensures RuntimeFiles(prefix, members) == []
  {
    RuntimeFilesAre(prefix, members);
    assert RuntimeFiles(prefix, members) != [] ==> RuntimeFiles(prefix, members)[0] in RuntimeFiles(prefix, members);
  }

  lemma ProgramsLayout(planned: seq<Destination>, names: seq<string>)
    requires forall d :: d in planned ==> exists n :: n in names && d.path == ["opt"] + ["bin", n]
    requires forall i, j :: 0 <= i < j < |planned| ==> planned[i].path != planned[j].path
    ensures Layout(planned, [["var", "install.json"]])
  {
    forall d | d in planned ensures |d.path| == 3 && d.path[0] == "opt" {
      var n :| n in names && d.path == ["opt"] + ["bin", n];
    }
    forall i, j | 0 <= i < j < |planned| ensures !Collide(planned[i].path, planned[j].path) {
      assert planned[i] in planned && planned[j] in planned;
      SameLength(planned[i].path, planned[j].path);
    }
  }

  lemma SameLength(a: Path, b: Path)
    requires |a| == |b| && a != b
    ensures !Collide(a, b)
  {
  }

  /** An installation of it whose other fields are that long leaves a record that every later call refuses. */
  lemma LongRecordRefused(w: World, rest: string)
    requires JsonInverse(w) && WritesRest(w) && |rest| > MAX_RECORD
    ensures var planned, at := Planned(["opt"], SmallBundle(), None), ["var", "install.json"];
            var r := Record(1, ["opt"], None, Entries(w, planned), rest);
            && Verified(SmallBundle()) && Layout(planned, [at]) && OwnAs(w, ["opt"], at, File(w.json(r), PRIVATE), r)
            && ReadRecord(w, ["opt"], at, map[at := File(w.json(r), PRIVATE)]) == Refused
  {
    hide Planned, Verified, RecordOk, Layout, SmallBundle;
    SmallBundleOk();
    SmallLayout();
    var planned, at := Planned(["opt"], SmallBundle(), None), ["var", "install.json"];
    InstallRecordOk(w, ["opt"], SmallBundle(), None, [at], rest);
    EntriesClear(w, planned, [at], at);
    var r := Record(1, ["opt"], None, Entries(w, planned), rest);
    OwnRecordRead(w, ["opt"], at, map[at := File(w.json(r), PRIVATE)], r);
  }

  lemma InstalledFiles(w: World, before: Disk, planned: seq<Destination>, obsolete: set<Path>, at: Path, r: Record, after: Disk)
    requires InstalledAs(w, before, planned, obsolete, at, r, after)
    ensures r.files == Entries(w, planned)
  {
  }

  lemma AllMatching(w: World, fs: Disk, distrusted: set<Path>, files: seq<Entry>, planned: seq<Destination>)
    requires Distinct(files) && |files| == |planned|
    requires forall i :: 0 <= i < |planned| ==> planned[i].path in fs && files[i].path == planned[i].path
    requires forall i :: 0 <= i < |planned| ==>
               (Matches(w, fs, distrusted, files[i]) <==> planned[i].path !in distrusted && |planned[i].bytes| <= MAX_OWNED)
    ensures Kept(w, fs, distrusted, files) == [] <==> forall d :: d in planned ==> d.path !in distrusted && |d.bytes| <= MAX_OWNED
    ensures Kept(w, fs, distrusted, files) == [] ==> Matching(w, fs, distrusted, files) == Paths(planned)
  {
    hide Matches, Kept;
    KeptIs(w, fs, distrusted, files);
    var kept := Kept(w, fs, distrusted, files);
    if kept != [] {
      var i :| 0 <= i < |files| && files[i] == kept[0];
      assert kept[0] in kept && planned[i] in planned;
    } else {
      forall i | 0 <= i < |planned| ensures Matches(w, fs, distrusted, files[i]) {
        assert files[i] in files && files[i] !in kept;
      }
      forall d | d in planned ensures d.path in Matching(w, fs, distrusted, files) && d.path !in distrusted && |d.bytes| <= MAX_OWNED {
        var i :| 0 <= i < |planned| && planned[i] == d;
        assert files[i] in files;
      }
      forall e | e in files ensures e.path in Paths(planned) {
        var i :| 0 <= i < |files| && files[i] == e;
        assert planned[i] in planned;
      }
    }
  }

  lemma InstalledMatches(w: World, before: Disk, planned: seq<Destination>, obsolete: set<Path>, at: Path, r: Record, after: Disk,
                         distrusted: set<Path>, i: nat)
    requires InstalledAs(w, before, planned, obsolete, at, r, after) && i < |planned|
    ensures r.files[i].path == planned[i].path && planned[i].path in after
    ensures Matches(w, after, distrusted, r.files[i]) <==> planned[i].path !in distrusted && |planned[i].bytes| <= MAX_OWNED
  {
    hide Written;
    forall j, k | 0 <= j < k < |planned| ensures planned[j].path != planned[k].path {
      assert !Collide(planned[j].path, planned[k].path);
    }
    WrittenAt(before, planned, i);
    assert at in [at] && planned[i] in planned;
    assert !Collide(planned[i].path, at) && planned[i].path in Paths(planned);
  }

  // ----- The runtime that the verifier accepts can be recorded -----

  lemma SafeName(n: string)
    requires RuntimeClosure.Safe(n)
    ensures NameOk(n) && Plain(n) && ".." != n
  {
  }

  lemma Under(dir: string, name: string)
    requires Plain(dir) && Plain(name)
    ensures Split(dir + "/" + name) == [dir, name]
  {
    SplitPlain(dir, name);
    SplitPlain(name, "");
  }

  lemma OmuxPrefix(rest: string)
    ensures Split("lib/omux/" + rest) == ["lib", "omux"] + Split(rest)
  {
    hide Split;
    SplitPlain("lib", "omux/" + rest);
    SplitPlain("omux", rest);
    assert "lib/omux/" + rest == "lib" + "/" + ("omux/" + rest) && "omux/" + rest == "omux" + "/" + rest;
  }

  lemma UnderOmux(dir: string, name: string)
    requires Plain(dir) && Plain(name)
    ensures Split("lib/omux/" + dir + "/" + name) == ["lib", "omux", dir, name]
  {
    hide Split, Plain;
    Under(dir, name);
    OmuxPrefix(dir + "/" + name);
    assert "lib/omux/" + dir + "/" + name == "lib/omux/" + (dir + "/" + name);
  }

  lemma QtPrefix(rest: string)
    ensures Split("lib/omux/qt/" + rest) == ["lib", "omux", "qt"] + Split(rest)
  {
    hide Split;
    OmuxPrefix("qt/" + rest);
    SplitPlain("qt", rest);
    assert "qt/" + rest == "qt" + "/" + rest && "lib/omux/qt/" + rest == "lib/omux/" + ("qt/" + rest);
  }

  lemma UnderQt(dir: string, name: string)
    requires Plain(dir) && Plain(name)
    ensures Split("lib/omux/qt/" + dir + "/" + name) == ["lib", "omux", "qt", dir, name]
  {
    hide Split, Plain;
    Under(dir, name);
    QtPrefix(dir + "/" + name);
    assert "lib/omux/qt/" + dir + "/" + name == "lib/omux/qt/" + (dir + "/" + name);
  }

  lemma UnderPlatforms(name: string)
    requires Plain(name)
    ensures Split("lib/omux/qt/plugins/platforms/" + name) == ["lib", "omux", "qt", "plugins", "platforms", name]
  {
    hide Split;
    var rest := "platforms" + "/" + name;
    Under("platforms", name);
    SplitPlain("plugins", rest);
    QtPrefix("plugins" + "/" + rest);
    assert "lib/omux/qt/plugins/platforms/" + name == "lib/omux/qt/" + ("plugins" + "/" + rest);
  }

  lemma FixedAreRuntime()
    ensures RuntimePath(["lib", "omux", "libexec", "omux.bin"]) && RuntimePath(["lib", "omux", "libexec", "omuxd.bin"])
    ensures RuntimePath(["lib", "omux", "share", "ca-bundle.crt"])
  {
  }

  lemma OmuxPath()
    ensures Split(RuntimeAssembly.OMUX) == ["lib", "omux", "libexec", "omux.bin"]
  {
    hide Split, Plain;
    PlainParts();
    UnderOmux("libexec", "omux.bin");
    assert RuntimeAssembly.OMUX == "lib/omux/" + "libexec" + "/" + "omux.bin";
  }

  lemma OmuxdPath()
    ensures Split(RuntimeAssembly.OMUXD) == ["lib", "omux", "libexec", "omuxd.bin"]
  {
    hide Split, Plain;
    PlainParts();
    UnderOmux("libexec", "omuxd.bin");
    assert RuntimeAssembly.OMUXD == "lib/omux/" + "libexec" + "/" + "omuxd.bin";
  }

  lemma CaPath()
    ensures Split(RuntimeAssembly.CA_BUNDLE) == ["lib", "omux", "share", "ca-bundle.crt"]
  {
    hide Split, Plain;
    PlainParts();
    UnderOmux("share", "ca-bundle.crt");
    assert RuntimeAssembly.CA_BUNDLE == "lib/omux/" + "share" + "/" + "ca-bundle.crt";
  }

  lemma FixedPath(k: string)
    requires k == RuntimeAssembly.OMUX || k == RuntimeAssembly.OMUXD || k == RuntimeAssembly.CA_BUNDLE
    ensures RuntimePath(Split(k))
  {
    hide Split, RuntimePath, RuntimeAssembly.OMUX, RuntimeAssembly.OMUXD, RuntimeAssembly.CA_BUNDLE;
    FixedAreRuntime();
    OmuxPath();
    OmuxdPath();
    CaPath();
  }

  lemma PlainParts()
    ensures Plain("libexec") && Plain("omux.bin") && Plain("omuxd.bin") && Plain("share") && Plain("ca-bundle.crt")
    ensures Plain("lib") && Plain("omux-control.bin") && Plain("qt.conf")
  {
  }

  lemma ControlPath()
    ensures Split(RuntimeAssembly.QT_CONTROL) == ["lib", "omux", "qt", "libexec", "omux-control.bin"]
  {
    hide Split, Plain;
    PlainParts();
    UnderQt("libexec", "omux-control.bin");
    assert RuntimeAssembly.QT_CONTROL == "lib/omux/qt/" + "libexec" + "/" + "omux-control.bin";
  }

  lemma ConfigPath()
    ensures Split(RuntimeAssembly.QT_CONFIG) == ["lib", "omux", "qt", "libexec", "qt.conf"]
  {
    hide Split, Plain;
    PlainParts();
    UnderQt("libexec", "qt.conf");
    assert RuntimeAssembly.QT_CONFIG == "lib/omux/qt/" + "libexec" + "/" + "qt.conf";
  }

  lemma FixedQtPath(k: string)
    requires k == RuntimeAssembly.QT_CONTROL || k == RuntimeAssembly.QT_CONFIG
    ensures RuntimePath(Split(k))
  {
    hide Split, RuntimeAssembly.QT_CONTROL, RuntimeAssembly.QT_CONFIG;
    ControlPath();
    ConfigPath();
  }

  lemma LibraryPath(ns: string, n: string)
    requires (ns == RuntimeAssembly.RUNTIME || ns == RuntimeAssembly.QT_RUNTIME) && RuntimeClosure.Safe(n)
    ensures RuntimePath(Split(RuntimeAssembly.LibKey(ns, n)))
  {
    hide Split, Plain, NameOk;
    PlainParts();
    SafeName(n);
    if ns == RuntimeAssembly.RUNTIME {
      UnderOmux("lib", n);
      assert RuntimeAssembly.LibKey(ns, n) == "lib/omux/" + "lib" + "/" + n;
    } else {
      UnderQt("lib", n);
      assert RuntimeAssembly.LibKey(ns, n) == "lib/omux/qt/" + "lib" + "/" + n;
    }
  }

  lemma PluginPath(n: string)
    requires RuntimeClosure.Safe(n) && EndsWith(n, ".so")
    ensures RuntimePath(Split(RuntimeAssembly.PluginKey(n)))
  {
    hide Split, Plain, NameOk;
    SafeName(n);
    UnderPlatforms(n);
    assert RuntimeAssembly.PluginKey(n) == "lib/omux/qt/plugins/platforms/" + n;
    StemOk(n);
  }

  /** The name of a plugin before its suffix. */
  lemma StemOk(n: string)
    requires RuntimeClosure.Safe(n) && EndsWith(n, ".so")
    ensures |n| > 3 && NameOk(n[..|n| - 3])
  {
    assert n[|n| - 3..][0] == '.' && n[|n| - 3] == n[|n| - 3..][0];
  }

  /** What an accepted archive can hold beside its launchers. */
  lemma AcceptedKey(w: RuntimeAssembly.World, files: map<string, Bytes>, m: RuntimeAssembly.Manifest, k: string)
    requires RuntimeAssembly.Accepts(w, files, m) && k in files && k != "" && k[0] != 'b'
    ensures || k == RuntimeAssembly.OMUX || k == RuntimeAssembly.OMUXD || k == RuntimeAssembly.CA_BUNDLE
            || k == RuntimeAssembly.QT_CONTROL || k == RuntimeAssembly.QT_CONFIG
            || (RuntimeClosure.Basename(k).Some? && k == RuntimeAssembly.LibKey(RuntimeAssembly.RUNTIME, RuntimeClosure.Basename(k).value))
            || (RuntimeClosure.Basename(k).Some? && k == RuntimeAssembly.LibKey(RuntimeAssembly.QT_RUNTIME, RuntimeClosure.Basename(k).value))
            || (RuntimeClosure.Basename(k).Some? && k == RuntimeAssembly.PluginKey(RuntimeClosure.Basename(k).value) && EndsWith(k, ".so"))
  {
    hide RuntimeAssembly.LaunchersOk, RuntimeAssembly.CaOk, RuntimeAssembly.GraphOk, RuntimeAssembly.LibKey, RuntimeAssembly.PluginKey,
         RuntimeAssembly.Trusted, RuntimeAssembly.ArchivedOk, RuntimeAssembly.Launcher, RuntimeAssembly.ChannelCode, StrictBy,
         RuntimeClosure.Basename, RuntimeAssembly.OMUX, RuntimeAssembly.OMUXD, RuntimeAssembly.CA_BUNDLE, RuntimeAssembly.QT_CONTROL,
         RuntimeAssembly.QT_CONFIG, EndsWith;
    assert forall n :: n in RuntimeAssembly.CoreNames() ==> n[0] == 'b';
    assert "bin/omux-control"[0] == 'b';
  }

  /** Every runtime path of an archive that the portable verifier accepts may stand in a record. */
  lemma AcceptedRecordable(w: RuntimeAssembly.World, files: map<string, Bytes>, m: RuntimeAssembly.Manifest, k: string)
    requires RuntimeAssembly.Accepts(w, files, m) && k in files && k != "" && k[0] != 'b'
    ensures RuntimePath(Split(k))
  {
    hide RuntimePath, Split, RuntimeAssembly.Accepts, RuntimeAssembly.LibKey, RuntimeAssembly.PluginKey, RuntimeAssembly.OMUX, RuntimeAssembly.OMUXD,
         RuntimeAssembly.CA_BUNDLE, RuntimeAssembly.QT_CONTROL, RuntimeAssembly.QT_CONFIG, RuntimeAssembly.RUNTIME, RuntimeAssembly.QT_RUNTIME, RuntimeClosure.LastPart;
    AcceptedKey(w, files, m, k);
    if k == RuntimeAssembly.OMUX || k == RuntimeAssembly.OMUXD || k == RuntimeAssembly.CA_BUNDLE {
      FixedPath(k);
    } else if k == RuntimeAssembly.QT_CONTROL || k == RuntimeAssembly.QT_CONFIG {
      FixedQtPath(k);
    } else {
      var n := RuntimeClosure.Basename(k).value;
      if k == RuntimeAssembly.LibKey(RuntimeAssembly.RUNTIME, n) {
        LibraryPath(RuntimeAssembly.RUNTIME, n);
      } else if k == RuntimeAssembly.LibKey(RuntimeAssembly.QT_RUNTIME, n) {
        LibraryPath(RuntimeAssembly.QT_RUNTIME, n);
      } else {
        PluginEnds(k);
        PluginPath(n);
      }
    }
  }

  lemma PluginEnds(k: string)
    requires RuntimeClosure.Basename(k).Some? && k == RuntimeAssembly.PluginKey(RuntimeClosure.Basename(k).value) && EndsWith(k, ".so")
    ensures EndsWith(RuntimeClosure.Basename(k).value, ".so")
  {
  }
}
