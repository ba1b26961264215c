/**
  The portable runtime of delivery/portable.py: `assemble_linux` and the verifier that must accept
  whatever it returns.

  Reading files, patchelf, SHA-256, the PEM check of the certificate bundle and the generated
  launcher template are given by a `World`.  `patchelf` is trusted for one thing: the machine of an
  ELF file does not change.
*/
module RuntimeAssembly {

  import opened Basics
  import opened RuntimeClosure
  import Elf

  const RUNTIME: string := "lib/omux"
  const QT_RUNTIME: string := "lib/omux/qt"
  const CA_BUNDLE: string := "lib/omux/share/ca-bundle.crt"
  const BACKEND_INTERPRETER: string := "/omux/launch-via-bin-wrapper"
  const BACKEND_RPATH: string := "$ORIGIN/../lib"
  const PLUGIN_RPATH: string := "$ORIGIN/../../lib"
  const QT_CONTROL: string := "lib/omux/qt/libexec/omux-control.bin"
  const QT_CONFIG: string := "lib/omux/qt/libexec/qt.conf"
  const WITNESS_SCOPE: string := "native-qt-offscreen-startup-only"
  const ALIASES: seq<string> := ["omux", "oauth-mux", "omux-native-host", "git-credential-omux"]

  datatype Role = Backend | Library | Plugin

  datatype World = World(
    read: Path -> Option<Bytes>,
    aliases: Path -> set<Path>,
    absolute: string -> Path,
    search: (string, Path, string) -> Option<Path>,
    resolved: Path -> Path,
    sha: Bytes -> string,
    patch: (Bytes, Role) -> Option<Bytes>,
    caOk: Bytes -> bool,
    qtConfig: Bytes,
    abi: int, template: Bytes, templateSha: string, templateTarget: string)

  /** patchelf leaves the machine as it was. */
  ghost predicate PatchKeepsMachine(w: World) {
    forall b, role, m, n ::
      w.patch(b, role).Some? && Elf.Metadata(b, m).Some? && Elf.Metadata(w.patch(b, role).value, n).Some? ==>
        Elf.Metadata(w.patch(b, role).value, n).value.machine == Elf.Metadata(b, m).value.machine
  }

  // ----- Launchers -----

  function ChannelCode(channel: Option<string>): Option<Byte> {
    if channel.None? then Some(0)
    else if channel.value == "development" then Some(1)
    else if channel.value == "release" then Some(2)
    else None
  }

  function RoleCode(backend: string): Option<Byte> {
    if backend == "omux.bin" then Some(1)
    else if backend == "omuxd.bin" then Some(2)
    else if backend == "omux-control.bin" then Some(3)
    else None
  }

  predicate HexDigest(s: string) {
    |s| == 64 && forall i :: 0 <= i < 64 ==> '0' <= s[i] <= '9' || 'a' <= s[i] <= 'f'
  }

  /** The generated launcher serves this target and is the static file its digest names. */
  predicate Trusted(w: World, target: string) {
    && w.abi == 1 && Elf.Machine(w.templateTarget).Some? && target == w.templateTarget
    && 0 < |w.template| <= Elf.MAX_FILE && HexDigest(w.templateSha) && w.sha(w.template) == w.templateSha
    && Elf.Metadata(w.template, Elf.MAX_FILE) == Some(Elf.Info([], [], None, Elf.Machine(target).value))
  }

  function Zeros(n: nat): (z: Bytes)
    ensures |z| == n && forall i :: 0 <= i < n ==> z[i] == 0
  {
    seq(n, _ => 0)
  }

  function Ascii(s: string): (b: Bytes)
    requires forall i :: 0 <= i < |s| ==> s[i] < 128 as char
    ensures |b| == |s| && forall i :: 0 <= i < |s| ==> b[i] == s[i] as int
  {
    seq(|s|, i requires 0 <= i < |s| => s[i] as int)
  }

  lemma SafeAscii(s: string)
    requires Safe(s)
    ensures |s| <= 128 && forall i :: 0 <= i < |s| ==> s[i] < 128 as char && s[i] != 0 as char && s[i] != '/'
  {
  }

  /** The 256-byte record behind the template: magic, ABI, role, channel, machine, loader. */
  function LaunchRecord(loader: string, role: Byte, channel: Byte, machine: nat): (r: Bytes)
    requires Safe(loader)
    ensures |r| == 256
  {
    SafeAscii(loader);
    Elf.LAUNCH_MAGIC + [1, role, channel, 0] + LittleEndian(machine, 2) + Zeros(10) + Ascii(loader) + Zeros(224 - |loader|)
  }

  function Launcher(w: World, loader: string, backend: string, channel: Option<string>, target: string): Option<Bytes> {
    if Basename(loader).None? || RoleCode(backend).None? || ChannelCode(channel).None? || !Trusted(w, target) then None
    else Some(w.template + LaunchRecord(Basename(loader).value, RoleCode(backend).value, ChannelCode(channel).value, Elf.Machine(target).value))
  }

  /** The record filled in place. */
  method FillRecord(loader: string, role: Byte, channel: Byte, machine: nat) returns (r: Bytes)
    requires Safe(loader)
    ensures r == LaunchRecord(loader, role, channel, machine)
  {
    hide Safe, LittleEndian;
    SafeAscii(loader);
    var code, text := LittleEndian(machine, 2), Ascii(loader);
    var record := new Byte[256](_ => 0);
    for i := 0 to 16
      invariant forall j :: 0 <= j < 256 ==> record[j] == if j < i then Elf.LAUNCH_MAGIC[j] else 0
    {
      record[i] := Elf.LAUNCH_MAGIC[i];
    }
    record[16], record[17], record[18] := 1, role, channel;
    record[20], record[21] := code[0], code[1];
    ghost var head := record[..32];
    assert head == Elf.LAUNCH_MAGIC + [1, role, channel, 0] + code + Zeros(10);
    for i := 0 to |text|
      invariant record[..32] == head
      invariant forall j :: 32 <= j < 256 ==> record[j] == if j < 32 + i then text[j - 32] else 0
    {
      record[32 + i] := text[i];
    }
    assert record[..] == head + record[32..];
    assert record[32..] == text + Zeros(224 - |text|);
    assert head + (text + Zeros(224 - |text|)) == head + text + Zeros(224 - |text|);
    return record[..];
  }

  method LinuxLauncher(w: World, loader: string, backend: string, channel: Option<string>, target: string) returns (r: Option<Bytes>)
    ensures r == Launcher(w, loader, backend, channel, target)
  {
    hide Elf.Metadata, Safe, LittleEndian, LaunchRecord;
    var name, role, code := Basename(loader), RoleCode(backend), ChannelCode(channel);
    if name.None? || role.None? || code.None? || !Trusted(w, target) {
      return None;
    }
    var record := FillRecord(name.value, role.value, code.value, Elf.Machine(target).value);
    return Some(w.template + record);
  }

  lemma RecordFields(loader: string, role: Byte, channel: Byte, machine: nat)
    requires Safe(loader)
    ensures var r := LaunchRecord(loader, role, channel, machine);
            && r[17] == role && r[18] == channel && r[20..22] == LittleEndian(machine, 2)
            && (forall j :: 32 <= j < 32 + |loader| ==> r[j] == loader[j - 32] as int && r[j] != 0)
            && forall j :: 32 + |loader| <= j < 256 ==> r[j] == 0
  {
  }

  lemma RecordInjective(a: string, role: Byte, channel: Byte, b: string, role': Byte, channel': Byte, machine: nat)
    requires Safe(a) && Safe(b) && LaunchRecord(a, role, channel, machine) == LaunchRecord(b, role', channel', machine)
    ensures a == b && role == role' && channel == channel'
  {
    hide LaunchRecord, Safe;
    RecordFields(a, role, channel, machine);
    RecordFields(b, role', channel', machine);
    var r := LaunchRecord(a, role, channel, machine);
    SafeAscii(a);
    SafeAscii(b);
    var afterA, afterB := r[32 + |a|], r[32 + |b|];
    assert |a| == |b|;
    assert forall i :: 0 <= i < |a| ==> a[i] as int == r[32 + i] == b[i] as int;
  }

  lemma CodesInjective(backend: string, backend': string, channel: Option<string>, channel': Option<string>)
    ensures RoleCode(backend).Some? && RoleCode(backend) == RoleCode(backend') ==> backend == backend'
    ensures ChannelCode(channel).Some? && ChannelCode(channel) == ChannelCode(channel') ==> channel == channel'
  {
  }

  lemma TailSame(a: Bytes, b: Bytes, c: Bytes)
    requires a + b == a + c
    ensures b == c
  {
    assert b == (a + b)[|a|..] && c == (a + c)[|a|..];
  }

  /** A launcher determines the loader, the role and the channel it was made for. */
  lemma LauncherInjective(w: World, target: string, loader: string, backend: string, channel: Option<string>,
                          loader': string, backend': string, channel': Option<string>)
    requires Launcher(w, loader, backend, channel, target).Some?
    requires Launcher(w, loader, backend, channel, target) == Launcher(w, loader', backend', channel', target)
    ensures Basename(loader) == Basename(loader') && backend == backend' && channel == channel'
  {
    hide Trusted, LaunchRecord, Elf.Machine, LastPart, RoleCode, ChannelCode;
    CodesInjective(backend, backend', channel, channel');
    var machine := Elf.Machine(target);
    assert machine.Some? by { TrustedMachine(w, target); }
    var r := LaunchRecord(Basename(loader).value, RoleCode(backend).value, ChannelCode(channel).value, machine.value);
    var r' := LaunchRecord(Basename(loader').value, RoleCode(backend').value, ChannelCode(channel').value, machine.value);
    TailSame(w.template, r, r');
    RecordInjective(Basename(loader).value, RoleCode(backend).value, ChannelCode(channel).value,
                    Basename(loader').value, RoleCode(backend').value, ChannelCode(channel').value, machine.value);
  }

  lemma TrustedMachine(w: World, target: string)
    requires Trusted(w, target)
    ensures Elf.Machine(target).Some?
  {
  }

  // ----- The resolution witness -----

  datatype Audited = Audited(soname: string, sha256: string, variants: seq<string>)

  datatype Witness = Witness(schemaVersion: int, scope: string, target: string, controlSha256: string, libraries: seq<Audited>)

  function Self(s: string): string { s }

  function Soname(a: Audited): string { a.soname }

  predicate AuditedOk(a: Audited) {
    && Basename(a.soname) == Some(a.soname) && a.soname != "libc.so.6" && !("ld-" <= a.soname)
    && HexDigest(a.sha256) && 0 < |a.variants| <= 128 && (forall v :: v in a.variants ==> HexDigest(v))
    && StrictBy(Self, a.variants) && a.sha256 in a.variants
  }

  predicate WitnessOk(v: Witness, target: string) {
    && v.schemaVersion == 1 && v.scope == WITNESS_SCOPE && v.target == target && HexDigest(v.controlSha256)
    && 0 < |v.libraries| <= 128 && (forall a :: a in v.libraries ==> AuditedOk(a)) && DistinctBy(Soname, v.libraries)
  }

  function Canonical(v: Witness, target: string): Option<Witness> {
    if WitnessOk(v, target) then Some(v.(libraries := SortBy(Soname, v.libraries))) else None
  }

  /** A validated witness is valid and already in its canonical form. */
  lemma CanonicalIdempotent(v: Witness, target: string)
    requires WitnessOk(v, target)
    ensures var c := Canonical(v, target).value;
            && Canonical(c, target) == Some(c) && WitnessOk(c, target)
            && forall a :: a in c.libraries <==> a in v.libraries
  {
    hide AuditedOk, SortBy;
    SortOrders(Soname, v.libraries);
    SortStrict(Soname, v.libraries);
    StrictSorted(Soname, SortBy(Soname, v.libraries));
  }

  // ----- What the verifier demands -----

  datatype Artifact = Artifact(path: string, sha256: string)

  datatype Archived = Archived(audit: Witness, artifacts: seq<Artifact>, controlArtifact: Artifact)

  datatype Qt = Qt(loader: string, dependencies: seq<string>, control: string, config: string,
                   plugins: seq<string>, audit: Option<Archived>)

  datatype LauncherInfo = LauncherInfo(abi: int, target: string, templateSha256: string)

  datatype Runtime = Runtime(loader: string, dependencies: seq<string>, backendInterpreter: string,
                             caBundle: string, launcher: LauncherInfo, qt: Option<Qt>)

  datatype Manifest = Manifest(target: string, channel: Option<string>, runtime: Runtime)

  type Files = map<string, Bytes>

  function LibKey(ns: string, n: string): string { ns + "/lib/" + n }

  function PluginKey(n: string): string { QT_RUNTIME + "/plugins/platforms/" + n }

  predicate DependenciesOk(ns: string, loader: string, dependencies: seq<string>) {
    && 0 < |dependencies| <= MAX_HEADERS && StrictBy(Self, dependencies) && loader in dependencies
    && forall d :: d in dependencies ==> Basename(d).Some? && d == LibKey(ns, Basename(d).value)
  }

  predicate PluginsOk(plugins: seq<string>) {
    && 0 < |plugins| <= 128 && StrictBy(Self, plugins)
    && forall p :: p in plugins ==> Basename(p).Some? && p == PluginKey(Basename(p).value) && EndsWith(p, ".so")
  }

  function Basenames(names: seq<string>): set<string> {
    set d | d in names && Basename(d).Some? :: Basename(d).value
  }

  function Rpath(role: Role): string {
    match role case Backend => BACKEND_RPATH case Library => "$ORIGIN" case Plugin => PLUGIN_RPATH
  }

  /** The file's own lookups stay inside the process's closure. */
  predicate Confined(info: Elf.Info, role: Role, names: set<string>) {
    && (forall n :: n in info.needed ==> '/' !in n && n in names)
    && if role.Backend? then info.interpreter == Some(BACKEND_INTERPRETER) && info.rpath == [BACKEND_RPATH]
       else (info.interpreter.None? || info.interpreter == Some(BACKEND_INTERPRETER)) && forall p :: p in info.rpath ==> p == Rpath(role)
  }

  predicate ElfOk(b: Bytes, limit: int, machine: nat, role: Role, names: set<string>) {
    var info := Elf.Metadata(b, limit);
    info.Some? && info.value.machine == machine && Confined(info.value, role, names)
  }

  function RoleOf(name: string, backends: seq<string>, plugins: seq<string>): Role {
    if name in backends then Backend else if name in plugins then Plugin else Library
  }

  predicate GraphOk(files: Files, machine: nat, backends: seq<string>, dependencies: seq<string>, plugins: seq<string>) {
    forall name :: name in backends + dependencies + plugins ==>
      name in files && ElfOk(files[name], Elf.MAX_FILE, machine, RoleOf(name, backends, plugins), Basenames(dependencies))
  }

  predicate ArchivedOk(w: World, files: Files, target: string, dependencies: seq<string>, a: Archived) {
    && Canonical(a.audit, target) == Some(a.audit)
    && QT_CONTROL in files && a.controlArtifact == Artifact(QT_CONTROL, w.sha(files[QT_CONTROL]))
    && |a.artifacts| == |a.audit.libraries|
    && forall i :: 0 <= i < |a.artifacts| ==>
         var path := LibKey(QT_RUNTIME, a.audit.libraries[i].soname);
         path in dependencies && path in files && a.artifacts[i] == Artifact(path, w.sha(files[path]))
  }

  predicate QtOk(w: World, files: Files, channel: Option<string>, target: string, machine: nat, qt: Qt) {
    && DependenciesOk(QT_RUNTIME, qt.loader, qt.dependencies)
    && qt.control == QT_CONTROL && qt.config == QT_CONFIG && PluginsOk(qt.plugins)
    && QT_CONFIG in files && files[QT_CONFIG] == w.qtConfig
    && "bin/omux-control" in files && Launcher(w, qt.loader, "omux-control.bin", channel, target) == Some(files["bin/omux-control"])
    && (qt.audit.Some? ==> ArchivedOk(w, files, target, qt.dependencies, qt.audit.value))
    && GraphOk(files, machine, [QT_CONTROL], qt.dependencies, qt.plugins)
  }

  function CoreNames(): set<string> { Elements(Prefixed("bin/", ALIASES)) + {"bin/omuxd"} }

  const OMUX: string := "lib/omux/libexec/omux.bin"
  const OMUXD: string := "lib/omux/libexec/omuxd.bin"

  function Elements(s: seq<string>): set<string> { set x | x in s }

  function QtNames(qt: Qt): set<string> {
    {"bin/omux-control", QT_CONTROL, QT_CONFIG} + Elements(qt.plugins) + Elements(qt.dependencies)
  }

  /** What the manifest says of this namespace. */
  predicate CoreMeta(w: World, target: string, channel: Option<string>, r: Runtime) {
    && ChannelCode(channel).Some? && Elf.Machine(target).Some? && Trusted(w, target)
    && r.launcher == LauncherInfo(1, target, w.templateSha)
    && DependenciesOk(RUNTIME, r.loader, r.dependencies)
    && r.backendInterpreter == BACKEND_INTERPRETER && r.caBundle == CA_BUNDLE
  }

  predicate CaOk(w: World, files: Files) { CA_BUNDLE in files && w.caOk(files[CA_BUNDLE]) }

  predicate LaunchersOk(w: World, target: string, channel: Option<string>, files: Files, loader: string) {
    && (forall alias :: alias in ALIASES ==>
          "bin/" + alias in files && Launcher(w, loader, "omux.bin", channel, target) == Some(files["bin/" + alias]))
    && "bin/omuxd" in files && Launcher(w, loader, "omuxd.bin", channel, target) == Some(files["bin/omuxd"])
  }

  /** verify_linux_runtime accepts. */
  predicate Accepts(w: World, files: Files, m: Manifest) {
    var r := m.runtime;
    && CoreMeta(w, m.target, m.channel, r)
    && files.Keys == CoreNames() + {OMUX, OMUXD, CA_BUNDLE} + Elements(r.dependencies) + (if r.qt.Some? then QtNames(r.qt.value) else {})
    && (r.qt.Some? ==> QtOk(w, files, m.channel, m.target, Elf.Machine(m.target).value, r.qt.value))
    && CaOk(w, files)
    && GraphOk(files, Elf.Machine(m.target).value, [OMUX, OMUXD], r.dependencies, [])
    && LaunchersOk(w, m.target, m.channel, files, r.loader)
  }

  method CheckGraph(files: Files, machine: nat, backends: seq<string>, dependencies: seq<string>, plugins: seq<string>)
    returns (ok: bool)
    ensures ok <==> GraphOk(files, machine, backends, dependencies, plugins)
  {
    hide ElfOk, Basenames, RoleOf;
    var all, names := backends + dependencies + plugins, Basenames(dependencies);
    for i := 0 to |all|
      invariant forall name :: name in all[..i] ==>
                  name in files && ElfOk(files[name], Elf.MAX_FILE, machine, RoleOf(name, backends, plugins), names)
    {
      assert all[i] in all && all[..i + 1] == all[..i] + [all[i]];
      if all[i] !in files || !ElfOk(files[all[i]], Elf.MAX_FILE, machine, RoleOf(all[i], backends, plugins), names) {
        return false;
      }
    }
    assert all[..|all|] == all;
    return true;
  }

  // ----- Limits -----

  lemma MetadataLimit(b: Bytes, m: int, n: int)
    requires Elf.Metadata(b, m).Some? && 0 < n <= Elf.MAX_BACKEND_FILE
    ensures Elf.Metadata(b, n) == if |b| <= n then Elf.Metadata(b, m) else None
  {
  }

  // ----- Listings and keys -----

  /** sorted() of the names of a dictionary. */
  method Listing(names: set<string>) returns (r: seq<string>)
    ensures Lists(r, names)
  {
    hide LexLess;
    var all: seq<string> := [];
    var rest := names;
    while rest != {}
      invariant rest <= names && |all| + |rest| == |names|
      invariant forall x :: x in all <==> x in names - rest
      invariant DistinctBy(Self, all)
      decreases |rest|
    {
      var x :| x in rest;
      assert x !in all && forall i :: 0 <= i < |all| ==> all[i] in all;
      rest := rest - {x};
      all := all + [x];
    }
    SortOrders(Self, all);
    SortStrict(Self, all);
    r := SortBy(Self, all);
  }

  function Prefixed(prefix: string, names: seq<string>): (r: seq<string>)
    ensures |r| == |names| && forall i :: 0 <= i < |names| ==> r[i] == prefix + names[i]
  {
    seq(|names|, i requires 0 <= i < |names| => prefix + names[i])
  }

  lemma {:induction false} LexPrefix(prefix: string, a: string, b: string)
    ensures LexLess(prefix + a, prefix + b) == LexLess(a, b)
  {
    if prefix == [] {
      assert prefix + a == a && prefix + b == b;
    } else {
      LexPrefix(prefix[1..], a, b);
      assert (prefix + a)[1..] == prefix[1..] + a && (prefix + b)[1..] == prefix[1..] + b;
    }
  }

  lemma PrefixedStrict(prefix: string, names: seq<string>)
    requires StrictBy(Self, names)
    ensures StrictBy(Self, Prefixed(prefix, names))
  {
    hide LexLess;
    var keys := Prefixed(prefix, names);
    forall i, j | 0 <= i < j < |keys| ensures LexLess(keys[i], keys[j]) {
      LexPrefix(prefix, names[i], names[j]);
      assert LexLess(Self(names[i]), Self(names[j]));
    }
  }

  lemma {:induction false} LastOfPrefixed(prefix: string, name: string)
    requires prefix != [] && prefix[|prefix| - 1] == '/' && '/' !in name
    ensures LastPart(prefix + name) == name
  {
    if name == [] {
      assert prefix + name == prefix;
    } else {
      var init := name[..|name| - 1];
      LastOfPrefixed(prefix, init);
      assert (prefix + name)[..|prefix + name| - 1] == prefix + init;
      assert name == init + [name[|name| - 1]];
    }
  }

  lemma BasenameOfPrefixed(prefix: string, name: string)
    requires prefix != [] && prefix[|prefix| - 1] == '/' && Safe(name)
    ensures Basename(prefix + name) == Some(name)
  {
    SafeAscii(name);
    LastOfPrefixed(prefix, name);
  }

  /** The listing under a directory, as the verifier wants it. */
  lemma PrefixedNames(prefix: string, names: seq<string>)
    requires prefix != [] && prefix[|prefix| - 1] == '/' && StrictBy(Self, names) && forall n :: n in names ==> Safe(n)
    ensures var keys := Prefixed(prefix, names);
            && StrictBy(Self, keys) && Basenames(keys) == Elements(names)
            && forall k :: k in keys ==> Basename(k).Some? && k == prefix + Basename(k).value
  {
    hide LexLess, StrictBy, Basename, Safe;
    var keys := Prefixed(prefix, names);
    PrefixedStrict(prefix, names);
    forall i | 0 <= i < |keys| ensures Basename(keys[i]) == Some(names[i]) {
      BasenameOfPrefixed(prefix, names[i]);
    }
    forall n | n in names ensures n in Basenames(keys) {
      var i :| 0 <= i < |names| && names[i] == n;
      assert keys[i] in keys;
    }
  }

  // ----- The declared inputs of a namespace -----

  /** Runtime files by basename, each path once. */
  function Declare(files: seq<Path>): Option<map<string, seq<Path>>> {
    if files == [] then Some(map[])
    else
      var last := files[|files| - 1];
      match Declare(files[..|files| - 1])
      case None => None
      case Some(c) =>
        match Basename(last)
        case None => None
        case Some(n) => Some(if n !in c then c[n := [last]] else if last in c[n] then c else c[n := c[n] + [last]])
  }

  lemma {:induction false} DeclareSize(files: seq<Path>)
    requires Declare(files).Some?
    ensures |Declare(files).value| <= |files|
  {
    if files != [] {
      DeclareSize(files[..|files| - 1]);
    }
  }

  function Limit(role: Role, backendMax: int): int { if role.Backend? then backendMax else Elf.MAX_FILE }

  /** Read, parse and compare the machine. */
  function Inspect(w: World, machine: nat, backendMax: int, p: Path, backend: bool): Option<(Bytes, Elf.Info)> {
    var limit := if backend then backendMax else Elf.MAX_FILE;
    match w.read(p)
    case None => None
    case Some(b) =>
      match Elf.Metadata(b, limit)
      case None => None
      case Some(info) => if info.machine == machine then Some((b, info)) else None
  }

  function MakeEnv(w: World, machine: nat, backendMax: int, candidates: map<string, seq<Path>>, libraries: seq<Audited>): Env {
    Env((p, backend) => Inspect(w, machine, backendMax, p, backend), w.aliases, w.absolute, w.search, w.sha,
        candidates, Canons(libraries), Variants(libraries))
  }

  function Canons(libraries: seq<Audited>): map<string, string> {
    if libraries == [] then map[]
    else var last := libraries[|libraries| - 1]; Canons(libraries[..|libraries| - 1])[last.soname := last.sha256]
  }

  function Variants(libraries: seq<Audited>): map<string, set<string>> {
    if libraries == [] then map[]
    else var last := libraries[|libraries| - 1]; Variants(libraries[..|libraries| - 1])[last.soname := Elements(last.variants)]
  }

  lemma {:induction false} CanonNames(libraries: seq<Audited>)
    ensures forall a :: a in libraries ==> a.soname in Canons(libraries)
  {
    if libraries != [] {
      CanonNames(libraries[..|libraries| - 1]);
      assert libraries == libraries[..|libraries| - 1] + [libraries[|libraries| - 1]];
    }
  }

  /** Every selected name is the safe basename of a declared file. */
  lemma SelectedNames(env: Env, binary: Path, n: Namespace, name: string)
    requires Records(env, n.selected, Start(env, binary), n.seen) && name in n.selected
    ensures Safe(name) && name in env.candidates
  {
    var b := (name, Content(env, n.selected[name]).value);
    assert Bound(env, Start(env, binary), n.seen, b);
    if b in Start(env, binary) {
      var file := env.inspect(binary, true).value;
      MeaningDeclared(env, file.1.interpreter.value, binary, file.1.rpath, false);
    } else {
      var o :| o in n.seen && Binds(env, o, b);
      var x :| x in Needed(env, o) && BoundBy(env, o, x, b);
      MeaningDeclared(env, x, o.path, env.inspect(o.path, o.backend).value.1.rpath, o.qt);
    }
  }

  lemma SubmapSize(a: set<string>, b: set<string>)
    requires a <= b
    ensures |a| <= |b|
  {
    if a != {} {
      var x :| x in a;
      SubmapSize(a - {x}, b - {x});
    }
  }

  /** The loader and every audited name that the closure uses are selected. */
  lemma LoaderSelected(env: Env, binary: Path, n: Namespace)
    requires LoaderOf(env, binary) == Some((n.loaderName, n.loader)) && Records(env, n.selected, Start(env, binary), n.seen)
    ensures n.loaderName in n.selected
  {
    hide Bound;
    var file := env.inspect(binary, true).value;
    MeaningDeclared(env, file.1.interpreter.value, binary, file.1.rpath, false);
    var b := (n.loaderName, Content(env, n.loader).value);
    assert b in Start(env, binary);
    assert Bound(env, Start(env, binary), n.seen, b) by { StartBound(env, Start(env, binary), n.seen, b); }
  }

  lemma StartBound(env: Env, start: set<Binding>, S: set<Owner>, b: Binding)
    requires b in start
    ensures Bound(env, start, S, b)
  {
  }

  lemma UsedSelected(env: Env, start: set<Binding>, S: set<Owner>, selected: map<string, Path>, base: string)
    requires Records(env, selected, start, S) && (forall o :: o in S ==> Fine(env, o)) && Uses(env, S, base)
    ensures base in selected
  {
    var o, x :| o in S && o.qt && x in Needed(env, o) && Basename(x) == Some(base);
    assert Means(env, o, x).Some?;
    MeaningDeclared(env, x, o.path, env.inspect(o.path, o.backend).value.1.rpath, o.qt);
    var b := (base, Content(env, Means(env, o, x).value).value);
    assert BoundBy(env, o, x, b);
    assert Binds(env, o, b);
    assert Bound(env, start, S, b);
  }

  // ----- Staging -----

  /** The bytes that stand for an input in the archive: patched, unless it is the loader itself. */
  function Packaged(w: World, machine: nat, backendMax: int, source: Path, loader: Path, role: Role): Option<Bytes> {
    match Inspect(w, machine, backendMax, source, role.Backend?)
    case None => None
    case Some(file) => if role.Library? && w.resolved(source) == w.resolved(loader) then Some(file.0) else w.patch(file.0, role)
  }

  /** An input that can be packaged: what stands for it is confined to the closure. */
  predicate Packable(w: World, machine: nat, backendMax: int, source: Path, loader: Path, role: Role, closure: set<string>) {
    var b := Packaged(w, machine, backendMax, source, loader, role);
    b.Some? && ElfOk(b.value, Limit(role, backendMax), machine, role, closure)
  }

  ghost predicate AllPackable(w: World, machine: nat, backendMax: int, loader: Path, role: Role, closure: set<string>, sources: map<string, Path>) {
    forall x :: x in sources ==> Packable(w, machine, backendMax, sources[x], loader, role, closure)
  }

  /** Each of these names holds what stands for its own input. */
  ghost predicate Packed(w: World, machine: nat, backendMax: int, loader: Path, prefix: string, names: set<string>,
                         sources: map<string, Path>, role: Role, files: Files) {
    forall x :: x in names ==>
      x in sources && prefix + x in files && Packaged(w, machine, backendMax, sources[x], loader, role) == Some(files[prefix + x])
  }

  lemma SamePrefix(prefix: string, a: string, b: string)
    requires prefix + a == prefix + b
    ensures a == b
  {
    assert a == (prefix + a)[|prefix|..] && b == (prefix + b)[|prefix|..];
  }

  lemma PackedMore(w: World, machine: nat, backendMax: int, loader: Path, prefix: string, names: set<string>,
                   sources: map<string, Path>, role: Role, files: Files, x: string, bytes: Bytes)
    requires Packed(w, machine, backendMax, loader, prefix, names, sources, role, files)
    requires x in sources && Packaged(w, machine, backendMax, sources[x], loader, role) == Some(bytes)
    ensures Packed(w, machine, backendMax, loader, prefix, names + {x}, sources, role, files[prefix + x := bytes])
  {
    hide Packaged;
    forall y | y in names && prefix + y == prefix + x ensures y == x {
      SamePrefix(prefix, x, y);
    }
  }

  lemma PackedKept(w: World, machine: nat, backendMax: int, loader: Path, prefix: string, names: set<string>,
                   sources: map<string, Path>, role: Role, files: Files, after: Files)
    requires Packed(w, machine, backendMax, loader, prefix, names, sources, role, files)
    requires forall x :: x in names && prefix + x in files ==> prefix + x in after && after[prefix + x] == files[prefix + x]
    ensures Packed(w, machine, backendMax, loader, prefix, names, sources, role, after)
  {
    hide Packaged;
  }

  /** One input, checked as it will be packaged; refused exactly when it is not fit. */
  method StageOne(w: World, machine: nat, backendMax: int, source: Path, loader: Path, role: Role, closure: set<string>)
    returns (r: Option<Bytes>)
    requires PatchKeepsMachine(w)
    ensures r.Some? <==> Packable(w, machine, backendMax, source, loader, role, closure)
    ensures r.Some? ==> r == Packaged(w, machine, backendMax, source, loader, role)
  {
    hide Elf.Metadata;
    var staged := Packaged(w, machine, backendMax, source, loader, role);
    if staged.None? {
      return None;
    }
    var check := Elf.Metadata(staged.value, Limit(role, backendMax));
    if check.None? {
      return None;
    }
    if role.Backend? && (check.value.interpreter != Some(BACKEND_INTERPRETER) || check.value.rpath != [BACKEND_RPATH]) {
      return None;
    }
    if !role.Backend? && check.value.interpreter.Some? && check.value.interpreter.value != BACKEND_INTERPRETER {
      return None;
    }
    if exists n :: n in check.value.needed && ('/' in n || n !in closure) {
      return None;
    }
    if !role.Backend? && exists p :: p in check.value.rpath && p != Rpath(role) {
      return None;
    }
    return staged;
  }

  /** These keys were added, each holding a file confined to the closure; the others are as before. */
  ghost predicate Group(machine: nat, limit: int, role: Role, closure: set<string>, keys: seq<string>, before: Files, after: Files) {
    && after.Keys == before.Keys + Elements(keys)
    && (forall k :: k in keys ==> k in after && ElfOk(after[k], limit, machine, role, closure))
    && (forall k :: k in before && k !in keys ==> k in after && after[k] == before[k])
  }

  lemma GroupNone(machine: nat, limit: int, role: Role, closure: set<string>, before: Files)
    ensures Group(machine, limit, role, closure, [], before, before)
  {
  }

  lemma GroupMore(machine: nat, limit: int, role: Role, closure: set<string>, keys: seq<string>, before: Files, after: Files, k: string, b: Bytes)
    requires Group(machine, limit, role, closure, keys, before, after) && ElfOk(b, limit, machine, role, closure)
    ensures Group(machine, limit, role, closure, keys + [k], before, after[k := b])
  {
    hide ElfOk;
  }

  /** A group of inputs, each under a common directory. */
  method StageAll(w: World, machine: nat, backendMax: int, loader: Path, prefix: string, names: seq<string>,
                  sources: map<string, Path>, role: Role, closure: set<string>, before: Files)
    returns (r: Option<Files>)
    requires PatchKeepsMachine(w) && Elements(names) == sources.Keys
    ensures r.Some? <==> AllPackable(w, machine, backendMax, loader, role, closure, sources)
    ensures r.Some? ==> Group(machine, Limit(role, backendMax), role, closure, Prefixed(prefix, names), before, r.value)
    ensures r.Some? ==> Packed(w, machine, backendMax, loader, prefix, Elements(names), sources, role, r.value)
  {
    hide ElfOk, PatchKeepsMachine, Group, Packed, Packaged, Packable;
    assert Packed(w, machine, backendMax, loader, prefix, {}, sources, role, before) by { PackedNone(w, machine, backendMax, loader, prefix, sources, role, before); }
    var files := before;
    assert Group(machine, Limit(role, backendMax), role, closure, [], before, files) by {
      GroupNone(machine, Limit(role, backendMax), role, closure, before);
    }
    ghost var keys := Prefixed(prefix, names);
    assert names[..0] == [] && Elements([]) == {};
    for i := 0 to |names|
      invariant Group(machine, Limit(role, backendMax), role, closure, keys[..i], before, files)
      invariant Packed(w, machine, backendMax, loader, prefix, Elements(names[..i]), sources, role, files)
      invariant forall x :: x in names[..i] ==> x in sources && Packable(w, machine, backendMax, sources[x], loader, role, closure)
    {
      assert names[..i + 1] == names[..i] + [names[i]] && Elements(names[..i + 1]) == Elements(names[..i]) + {names[i]};
      assert names[i] in Elements(names) && keys[i] == prefix + names[i] && keys[..i + 1] == keys[..i] + [keys[i]];
      var staged := StageOne(w, machine, backendMax, sources[names[i]], loader, role, closure);
      if staged.None? {
        return None;
      }
      PackableHas(w, machine, backendMax, sources[names[i]], loader, role, closure);
      GroupMore(machine, Limit(role, backendMax), role, closure, keys[..i], before, files, keys[i], staged.value);
      PackedMore(w, machine, backendMax, loader, prefix, Elements(names[..i]), sources, role, files, names[i], staged.value);
      files := files[prefix + names[i] := staged.value];
    }
    assert keys[..|names|] == keys && names[..|names|] == names;
    return Some(files);
  }

  lemma PackableHas(w: World, machine: nat, backendMax: int, source: Path, loader: Path, role: Role, closure: set<string>)
    requires Packable(w, machine, backendMax, source, loader, role, closure)
    ensures var b := Packaged(w, machine, backendMax, source, loader, role);
            b.Some? && ElfOk(b.value, Limit(role, backendMax), machine, role, closure)
  {
  }

  lemma PackedNone(w: World, machine: nat, backendMax: int, loader: Path, prefix: string, sources: map<string, Path>, role: Role, files: Files)
    ensures Packed(w, machine, backendMax, loader, prefix, {}, sources, role, files)
  {
  }

  /** Executables, libraries and plugins of a namespace each hold what stands for their own input. */
  ghost predicate Sourced(w: World, machine: nat, backendMax: int, ns: string, n: Namespace, backends: map<string, Path>,
                          plugins: map<string, Path>, files: Files) {
    && Packed(w, machine, backendMax, n.loader, ns + "/libexec/", backends.Keys, backends, Backend, files)
    && Packed(w, machine, backendMax, n.loader, ns + "/lib/", n.selected.Keys, n.selected, Library, files)
    && Packed(w, machine, backendMax, n.loader, ns + "/plugins/platforms/", plugins.Keys, plugins, Plugin, files)
  }

  lemma SourcedKept(w: World, machine: nat, backendMax: int, ns: string, n: Namespace, backends: map<string, Path>,
                    plugins: map<string, Path>, files: Files, after: Files)
    requires Sourced(w, machine, backendMax, ns, n, backends, plugins, files)
    requires forall k :: k in files && ns + "/" <= k ==> k in after && after[k] == files[k]
    ensures Sourced(w, machine, backendMax, ns, n, backends, plugins, after)
  {
    hide Packed;
    forall x: string ensures ns + "/" <= ns + "/libexec/" + x && ns + "/" <= ns + "/lib/" + x && ns + "/" <= ns + "/plugins/platforms/" + x {
    }
    PackedKept(w, machine, backendMax, n.loader, ns + "/libexec/", backends.Keys, backends, Backend, files, after);
    PackedKept(w, machine, backendMax, n.loader, ns + "/lib/", n.selected.Keys, n.selected, Library, files, after);
    PackedKept(w, machine, backendMax, n.loader, ns + "/plugins/platforms/", plugins.Keys, plugins, Plugin, files, after);
  }

  /** Every file of the namespace can be packaged. */
  ghost predicate Stageable(w: World, machine: nat, backendMax: int, n: Namespace, backends: map<string, Path>, plugins: map<string, Path>) {
    && AllPackable(w, machine, backendMax, n.loader, Backend, n.selected.Keys, backends)
    && AllPackable(w, machine, backendMax, n.loader, Library, n.selected.Keys, n.selected)
    && AllPackable(w, machine, backendMax, n.loader, Plugin, n.selected.Keys, plugins)
  }

  datatype Staged = Staged(files: Files, dependencies: seq<string>, plugins: seq<string>)

  lemma KeysApart(ns: string, a: string, b: string)
    ensures ns + "/lib/" + a != ns + "/libexec/" + b
    ensures ns + "/lib/" + a != ns + "/plugins/platforms/" + b && ns + "/libexec/" + a != ns + "/plugins/platforms/" + b
  {
    assert (ns + "/lib/" + a)[|ns| + 1] == 'l' && (ns + "/lib/" + a)[|ns| + 4] == '/';
    assert (ns + "/libexec/" + b)[|ns| + 4] == 'e' && (ns + "/libexec/" + a)[|ns| + 1] == 'l';
    assert (ns + "/plugins/platforms/" + b)[|ns| + 1] == 'p';
  }

  lemma GroupsApart(ns: string, backends: seq<string>, names: seq<string>, plugins: seq<string>)
    ensures var b, d, p := Prefixed(ns + "/libexec/", backends), Prefixed(ns + "/lib/", names), Prefixed(ns + "/plugins/platforms/", plugins);
            && (forall k :: k in b ==> k !in d && k !in p) && (forall k :: k in d ==> k !in p)
  {
    forall i, j | 0 <= i < |backends| && 0 <= j < |names| ensures ns + "/libexec/" + backends[i] != ns + "/lib/" + names[j] {
      KeysApart(ns, names[j], backends[i]);
    }
    forall i, j | 0 <= i < |backends| && 0 <= j < |plugins| ensures ns + "/libexec/" + backends[i] != ns + "/plugins/platforms/" + plugins[j] {
      KeysApart(ns, backends[i], plugins[j]);
    }
    forall i, j | 0 <= i < |names| && 0 <= j < |plugins| ensures ns + "/lib/" + names[i] != ns + "/plugins/platforms/" + plugins[j] {
      KeysApart(ns, names[i], plugins[j]);
    }
  }

  /** Executables, libraries and plugins, under distinct names. */
  ghost predicate FilesOk(machine: nat, backendMax: int, closure: set<string>, b: seq<string>, d: seq<string>, p: seq<string>,
                          before: Files, files: Files) {
    && files.Keys == before.Keys + Elements(b) + Elements(d) + Elements(p)
    && (forall k :: k in b ==> k !in d && k !in p && k in files && ElfOk(files[k], backendMax, machine, Backend, closure))
    && (forall k :: k in d ==> k !in p && k in files && ElfOk(files[k], Elf.MAX_FILE, machine, Library, closure))
    && (forall k :: k in p ==> k in files && ElfOk(files[k], Elf.MAX_FILE, machine, Plugin, closure))
    && (forall k :: k in before && k !in b && k !in d && k !in p ==> k in files && files[k] == before[k])
  }

  lemma ThreeGroups(machine: nat, backendMax: int, closure: set<string>, b: seq<string>, d: seq<string>, p: seq<string>,
                    before: Files, first: Files, second: Files, files: Files)
    requires Group(machine, backendMax, Backend, closure, b, before, first)
    requires Group(machine, Elf.MAX_FILE, Library, closure, d, first, second)
    requires Group(machine, Elf.MAX_FILE, Plugin, closure, p, second, files)
    requires (forall k :: k in b ==> k !in d && k !in p) && (forall k :: k in d ==> k !in p)
    ensures FilesOk(machine, backendMax, closure, b, d, p, before, files)
  {
  }

  /** What staging a namespace establishes. */
  ghost predicate StagedOk(machine: nat, backendMax: int, ns: string, before: Files, backends: seq<string>, n: Namespace,
                           plugins: set<string>, s: Staged) {
    && DependenciesOk(ns, LibKey(ns, n.loaderName), s.dependencies) && Basenames(s.dependencies) == n.selected.Keys
    && (exists names :: Lists(names, plugins) && s.plugins == Prefixed(ns + "/plugins/platforms/", names))
    && FilesOk(machine, backendMax, n.selected.Keys, Prefixed(ns + "/libexec/", backends), s.dependencies, s.plugins, before, s.files)
  }

  ghost predicate Lists(names: seq<string>, S: set<string>) {
    StrictBy(Self, names) && |names| == |S| && forall x :: x in names <==> x in S
  }

  /** Later groups leave the earlier ones as they were. */
  lemma GroupKeeps(w: World, machine: nat, backendMax: int, loader: Path, ns: string, backends: map<string, Path>, selected: map<string, Path>,
                   names: seq<string>, plugins: seq<string>, closure: set<string>, first: Files, second: Files, third: Files)
    requires Packed(w, machine, backendMax, loader, ns + "/libexec/", backends.Keys, backends, Backend, first)
    requires Packed(w, machine, backendMax, loader, ns + "/lib/", Elements(names), selected, Library, second)
    requires Group(machine, Elf.MAX_FILE, Library, closure, Prefixed(ns + "/lib/", names), first, second)
    requires Group(machine, Elf.MAX_FILE, Plugin, closure, Prefixed(ns + "/plugins/platforms/", plugins), second, third)
    ensures Packed(w, machine, backendMax, loader, ns + "/libexec/", backends.Keys, backends, Backend, third)
    ensures Packed(w, machine, backendMax, loader, ns + "/lib/", Elements(names), selected, Library, third)
  {
    hide Packed, ElfOk, Packaged;
    forall x: string ensures ns + "/libexec/" + x !in Prefixed(ns + "/lib/", names) && ns + "/libexec/" + x !in Prefixed(ns + "/plugins/platforms/", plugins)
                             && ns + "/lib/" + x !in Prefixed(ns + "/plugins/platforms/", plugins) {
      GroupsApart(ns, [x], names, plugins);
      GroupsApart(ns, [], [x], plugins);
      assert Prefixed(ns + "/libexec/", [x])[0] == ns + "/libexec/" + x && Prefixed(ns + "/lib/", [x])[0] == ns + "/lib/" + x;
    }
    PackedKept(w, machine, backendMax, loader, ns + "/libexec/", backends.Keys, backends, Backend, first, second);
    PackedKept(w, machine, backendMax, loader, ns + "/libexec/", backends.Keys, backends, Backend, second, third);
    PackedKept(w, machine, backendMax, loader, ns + "/lib/", Elements(names), selected, Library, second, third);
  }

  lemma DependenciesListed(ns: string, n: Namespace, names: seq<string>)
    requires Lists(names, n.selected.Keys) && n.loaderName in n.selected && |n.selected| <= MAX_HEADERS
    requires forall x :: x in n.selected ==> Safe(x)
    ensures var keys := Prefixed(ns + "/lib/", names);
            DependenciesOk(ns, LibKey(ns, n.loaderName), keys) && Basenames(keys) == n.selected.Keys
  {
    hide Safe, Basename, StrictBy, Basenames;
    var keys := Prefixed(ns + "/lib/", names);
    PrefixedNames(ns + "/lib/", names);
    assert Elements(names) == n.selected.Keys;
    var i :| 0 <= i < |names| && names[i] == n.loaderName;
    assert keys[i] == LibKey(ns, n.loaderName);
  }

  method StageNamespace(w: World, machine: nat, backendMax: int, ns: string, before: Files, backends: seq<string>,
                        sources: map<string, Path>, n: Namespace, plugins: map<string, Path>)
    returns (r: Option<Staged>)
    requires PatchKeepsMachine(w) && Elements(backends) == sources.Keys
    requires n.loaderName in n.selected && |n.selected| <= MAX_HEADERS && forall x :: x in n.selected ==> Safe(x)
    ensures r.Some? ==> StagedOk(machine, backendMax, ns, before, backends, n, plugins.Keys, r.value)
    ensures r.Some? ==> Sourced(w, machine, backendMax, ns, n, sources, plugins, r.value.files)
    ensures r.Some? <==> Stageable(w, machine, backendMax, n, sources, plugins)
  {
    hide PatchKeepsMachine, Safe, Basename, StrictBy, Basenames, Group, FilesOk, Packed, AllPackable;
    var closure := n.selected.Keys;
    var files := StageAll(w, machine, backendMax, n.loader, ns + "/libexec/", backends, sources, Backend, closure, before);
    if files.None? {
      return None;
    }
    var names := Listing(n.selected.Keys);
    assert Elements(names) == n.selected.Keys;
    var libs := StageAll(w, machine, backendMax, n.loader, ns + "/lib/", names, n.selected, Library, closure, files.value);
    if libs.None? {
      return None;
    }
    var pluginNames := Listing(plugins.Keys);
    assert Elements(pluginNames) == plugins.Keys;
    var all := StageAll(w, machine, backendMax, n.loader, ns + "/plugins/platforms/", pluginNames, plugins, Plugin, closure, libs.value);
    if all.None? {
      return None;
    }
    GroupsApart(ns, backends, names, pluginNames);
    var s := Staged(all.value, Prefixed(ns + "/lib/", names), Prefixed(ns + "/plugins/platforms/", pluginNames));
    ThreeGroups(machine, backendMax, closure, Prefixed(ns + "/libexec/", backends), s.dependencies, s.plugins,
                before, files.value, libs.value, all.value);
    DependenciesListed(ns, n, names);
    GroupKeeps(w, machine, backendMax, n.loader, ns, sources, n.selected, names, pluginNames, closure, files.value, libs.value, all.value);
    return Some(s);
  }

  // ----- The command-line and daemon namespace -----

  lemma {:induction false} PlainLast(name: string)
    requires '/' !in name
    ensures LastPart(name) == name
  {
  }

  lemma SafeBasename(name: string)
    requires Safe(name)
    ensures Basename(name) == Some(name) && forall ns :: Basename(LibKey(ns, name)) == Some(name)
  {
    SafeAscii(name);
    PlainLast(name);
    forall ns ensures Basename(LibKey(ns, name)) == Some(name) {
      BasenameOfPrefixed(ns + "/lib/", name);
      assert ns + "/lib/" + name == LibKey(ns, name);
    }
  }

  /** A namespace, resolved against the declared files, with what packaging needs of it. */
  method Resolved(w: World, machine: nat, backendMax: int, files: seq<Path>, libraries: seq<Audited>,
                  binary: Path, backends: seq<Path>, plugins: seq<Path>, qt: bool, witnessed: bool)
    returns (r: Option<Namespace>)
    ensures r.Some? ==>
              && r.value.loaderName in r.value.selected && |r.value.selected| <= MAX_HEADERS
              && (forall x :: x in r.value.selected ==> Safe(x))
              && (witnessed ==> forall a :: a in libraries ==> a.soname in r.value.selected)
    ensures r.Some? ==> From(w, machine, backendMax, files, libraries, binary, backends, plugins, qt, witnessed, r.value)
    ensures r.None? && 0 < |files| <= MAX_HEADERS ==>
              forall n :: !From(w, machine, backendMax, files, libraries, binary, backends, plugins, qt, witnessed, n)
  {
    if files == [] || |files| > MAX_HEADERS {
      return None;
    }
    var candidates := Declare(files);
    if candidates.None? {
      return None;
    }
    hide Outcome, MakeEnv, Declare, Safe;
    DeclareSize(files);
    var env := MakeEnv(w, machine, backendMax, candidates.value, libraries);
    r := ResolveNamespace(env, binary, backends, plugins, qt, witnessed);
    if r.Some? {
      NamespaceFacts(w, machine, backendMax, candidates.value, libraries, binary, backends, plugins, qt, witnessed, r.value);
    } else {
      NoOther(env, binary, backends, plugins, qt, witnessed);
    }
  }

  lemma NoOther(env: Env, binary: Path, backends: seq<Path>, plugins: seq<Path>, qt: bool, witnessed: bool)
    requires Outcome(env, binary, backends, plugins, qt, witnessed, None)
    ensures forall n :: !Outcome(env, binary, backends, plugins, qt, witnessed, Some(n))
  {
    hide Succeeds, Records;
  }

  /** There is a resolution, and whichever is found can be packaged. */
  ghost predicate Ready(w: World, machine: nat, backendMax: int, files: seq<Path>, libraries: seq<Audited>, binary: Path, backends: seq<Path>,
                        plugins: seq<Path>, qt: bool, witnessed: bool, sources: map<string, Path>, pluginSources: map<string, Path>) {
    && 0 < |files| <= MAX_HEADERS
    && (exists n :: From(w, machine, backendMax, files, libraries, binary, backends, plugins, qt, witnessed, n))
    && (forall n :: From(w, machine, backendMax, files, libraries, binary, backends, plugins, qt, witnessed, n) ==>
          Stageable(w, machine, backendMax, n, sources, pluginSources))
  }

  /** The namespace is what resolution against the declared files gives. */
  ghost predicate From(w: World, machine: nat, backendMax: int, files: seq<Path>, libraries: seq<Audited>,
                       binary: Path, backends: seq<Path>, plugins: seq<Path>, qt: bool, witnessed: bool, n: Namespace) {
    && Declare(files).Some?
    && Outcome(MakeEnv(w, machine, backendMax, Declare(files).value, libraries), binary, backends, plugins, qt, witnessed, Some(n))
  }

  lemma NamespaceFacts(w: World, machine: nat, backendMax: int, candidates: map<string, seq<Path>>, libraries: seq<Audited>,
                       binary: Path, backends: seq<Path>, plugins: seq<Path>, qt: bool, witnessed: bool, n: Namespace)
    requires Outcome(MakeEnv(w, machine, backendMax, candidates, libraries), binary, backends, plugins, qt, witnessed, Some(n))
    ensures n.loaderName in n.selected && |n.selected| <= |candidates| && forall x :: x in n.selected ==> Safe(x)
    ensures witnessed ==> forall a :: a in libraries ==> a.soname in n.selected
  {
    hide Records, Safe, LoaderOf, Roots, Start, Meaning, Uses, NoConflict, IsLeast, Fine;
    var env := MakeEnv(w, machine, backendMax, candidates, libraries);
    LoaderSelected(env, binary, n);
    forall x | x in n.selected ensures Safe(x) && x in candidates {
      SelectedNames(env, binary, n, x);
    }
    SubmapSize(n.selected.Keys, candidates.Keys);
    CanonNames(libraries);
    if witnessed {
      forall a | a in libraries ensures a.soname in n.selected {
        UsedSelected(env, Start(env, binary), n.seen, n.selected, a.soname);
      }
    }
  }

  /** Everything the verifier asks of this namespace, except that its executables may be larger. */
  ghost predicate CoreOk(w: World, target: string, channel: Option<string>, backendMax: int, files: Files, r: Runtime) {
    && CoreMeta(w, target, channel, r) && r.qt.None?
    && files.Keys == CoreNames() + {OMUX, OMUXD, CA_BUNDLE} + Elements(r.dependencies)
    && CaOk(w, files) && LaunchersOk(w, target, channel, files, r.loader)
    && CoreElves(Elf.Machine(target).value, backendMax, files, r.dependencies)
  }

  ghost predicate CoreElves(machine: nat, backendMax: int, files: Files, dependencies: seq<string>) {
    && OMUX !in dependencies && OMUXD !in dependencies
    && (forall k :: k in dependencies ==> k in files && ElfOk(files[k], Elf.MAX_FILE, machine, Library, Basenames(dependencies)))
    && (forall k :: k in [OMUX, OMUXD] ==> k in files && ElfOk(files[k], backendMax, machine, Backend, Basenames(dependencies)))
  }

  lemma CoreKeys()
    ensures Prefixed(RUNTIME + "/libexec/", ["omux.bin", "omuxd.bin"]) == [OMUX, OMUXD]
    ensures forall n :: LibKey(RUNTIME, n) != CA_BUNDLE && LibKey(RUNTIME, n) !in CoreNames() && LibKey(RUNTIME, n) != OMUX && LibKey(RUNTIME, n) != OMUXD
    ensures CA_BUNDLE != OMUX && CA_BUNDLE != OMUXD && CA_BUNDLE !in CoreNames() && OMUX !in CoreNames() && OMUXD !in CoreNames()
  {
    assert RUNTIME + "/libexec/" + "omux.bin" == OMUX && RUNTIME + "/libexec/" + "omuxd.bin" == OMUXD;
    forall n ensures LibKey(RUNTIME, n)[0] == 'l' && LibKey(RUNTIME, n)[9] == 'l' && LibKey(RUNTIME, n)[12] == '/' {
    }
    assert OMUX[12] == 'e' && OMUXD[12] == 'e' && CA_BUNDLE[9] == 's' && OMUX[9] == 'l';
    assert forall k :: k in CoreNames() ==> k[0] == 'b';
  }

  lemma {:induction false} AddAllIs(files: Files, aliases: seq<string>, launcher: Bytes)
    ensures var out, keys := AddAll(files, aliases, launcher), Prefixed("bin/", aliases);
            && out.Keys == files.Keys + Elements(keys) && (forall k :: k in keys ==> k in out && out[k] == launcher)
            && (forall k :: k in files && k !in keys ==> k in out && out[k] == files[k])
  {
    if aliases != [] {
      var init := aliases[..|aliases| - 1];
      AddAllIs(files, init, launcher);
      assert Prefixed("bin/", aliases) == Prefixed("bin/", init) + ["bin/" + aliases[|aliases| - 1]];
    }
  }

  ghost predicate Launched(files: Files, cli: Bytes, service: Bytes, out: Files) {
    && out.Keys == files.Keys + CoreNames()
    && (forall alias :: alias in ALIASES ==> "bin/" + alias in out && out["bin/" + alias] == cli) && "bin/omuxd" in out && out["bin/omuxd"] == service
    && (forall k :: k in files && k !in CoreNames() ==> k in out && out[k] == files[k])
  }

  lemma LaunchersAdded(files: Files, cli: Bytes, service: Bytes)
    ensures Launched(files, cli, service, AddAll(files, ALIASES, cli)["bin/omuxd" := service])
  {
    hide AddAll, ALIASES;
    AddAllIs(files, ALIASES, cli);
    AliasNames();
    forall alias | alias in ALIASES ensures "bin/" + alias in Prefixed("bin/", ALIASES) {
      var i :| 0 <= i < |ALIASES| && ALIASES[i] == alias;
      assert Prefixed("bin/", ALIASES)[i] == "bin/" + alias;
    }
  }

  lemma AliasNames()
    ensures "bin/omuxd" !in Prefixed("bin/", ALIASES)
  {
    assert "bin/omuxd" == "bin/" + "omuxd";
    forall a | a in ALIASES ensures "bin/" + a != "bin/" + "omuxd" {
      if "bin/" + a == "bin/" + "omuxd" {
        SamePrefix("bin/", a, "omuxd");
      }
    }
  }

  lemma CoreElvesStaged(machine: nat, backendMax: int, n: Namespace, bundle: Bytes, s: Staged, files: Files)
    requires StagedOk(machine, backendMax, RUNTIME, map[CA_BUNDLE := bundle], ["omux.bin", "omuxd.bin"], n, {}, s)
    requires forall k :: k in s.files && k !in CoreNames() ==> k in files && files[k] == s.files[k]
    ensures CoreElves(machine, backendMax, files, s.dependencies)
    ensures s.files.Keys == {OMUX, OMUXD, CA_BUNDLE} + Elements(s.dependencies) && s.files[CA_BUNDLE] == bundle
  {
    hide Basename, ElfOk, Basenames, StrictBy, LibKey, CoreNames, CA_BUNDLE, OMUX, OMUXD;
    CoreKeys();
    assert s.plugins == [];
    assert forall d :: d in s.dependencies ==> d != CA_BUNDLE && d !in CoreNames() && d != OMUX && d != OMUXD;
  }

  /** A launcher depends on its loader only through the basename. */
  lemma LauncherKey(w: World, target: string, channel: Option<string>, name: string, backend: string)
    requires Safe(name)
    ensures Launcher(w, LibKey(RUNTIME, name), backend, channel, target) == Launcher(w, name, backend, channel, target)
  {
    hide Safe, Basename, Trusted, LaunchRecord, RoleCode, ChannelCode;
    SafeBasename(name);
  }

  lemma CaIs(w: World, files: Files)
    requires CA_BUNDLE in files && w.caOk(files[CA_BUNDLE])
    ensures CaOk(w, files)
  {
  }

  lemma CoreAssembled(w: World, target: string, channel: Option<string>, backendMax: int, n: Namespace, bundle: Bytes,
                      s: Staged, cli: Bytes, service: Bytes, files: Files)
    requires ChannelCode(channel).Some? && Elf.Machine(target).Some? && Trusted(w, target) && w.caOk(bundle) && Safe(n.loaderName)
    requires StagedOk(Elf.Machine(target).value, backendMax, RUNTIME, map[CA_BUNDLE := bundle], ["omux.bin", "omuxd.bin"], n, {}, s)
    requires Launcher(w, n.loaderName, "omux.bin", channel, target) == Some(cli)
    requires Launcher(w, n.loaderName, "omuxd.bin", channel, target) == Some(service)
    requires Launched(s.files, cli, service, files)
    ensures CoreOk(w, target, channel, backendMax, files,
                   Runtime(LibKey(RUNTIME, n.loaderName), s.dependencies, BACKEND_INTERPRETER, CA_BUNDLE, LauncherInfo(1, target, w.templateSha), None))
  {
    hide Safe, Basename, ElfOk, Basenames, Trusted, StrictBy, Elf.Machine, LaunchRecord, ChannelCode, RoleCode, FilesOk, CoreNames,
         CoreElves, DependenciesOk, OMUX, OMUXD, Launcher;
    CoreKeys();
    LauncherKey(w, target, channel, n.loaderName, "omux.bin");
    LauncherKey(w, target, channel, n.loaderName, "omuxd.bin");
    CoreElvesStaged(Elf.Machine(target).value, backendMax, n, bundle, s, files);
    var r := Runtime(LibKey(RUNTIME, n.loaderName), s.dependencies, BACKEND_INTERPRETER, CA_BUNDLE, LauncherInfo(1, target, w.templateSha), None);
    assert CoreMeta(w, target, channel, r);
    assert files.Keys == CoreNames() + {OMUX, OMUXD, CA_BUNDLE} + Elements(r.dependencies);
    assert CA_BUNDLE in s.files && CA_BUNDLE !in CoreNames();
    assert s.files[CA_BUNDLE] == bundle;
    assert files[CA_BUNDLE] == s.files[CA_BUNDLE];
    CaIs(w, files);
  }

  function CoreBackends(binary: Path, daemon: Path): map<string, Path> { map["omux.bin" := binary, "omuxd.bin" := daemon] }

  lemma CoreBackendNames(binary: Path, daemon: Path)
    ensures Elements(["omux.bin", "omuxd.bin"]) == CoreBackends(binary, daemon).Keys
  {
  }

  /** Every file of this namespace stands for the input it should: the two executables and the resolved libraries. */
  ghost predicate CoreFrom(w: World, binary: Path, daemon: Path, runtimeFiles: seq<Path>, target: string, backendMax: int,
                           n: Namespace, files: Files, r: Runtime) {
    && Elf.Machine(target).Some?
    && From(w, Elf.Machine(target).value, backendMax, runtimeFiles, [], binary, [binary, daemon], [], false, false, n)
    && r.loader == LibKey(RUNTIME, n.loaderName) && Basenames(r.dependencies) == n.selected.Keys
    && Sourced(w, Elf.Machine(target).value, backendMax, RUNTIME, n, CoreBackends(binary, daemon), map[], files)
  }

  predicate CaReadable(w: World, ca: Path) {
    w.read(ca).Some? && |w.read(ca).value| <= Elf.MAX_FILE && w.caOk(w.read(ca).value)
  }

  /** Inputs from which assembly cannot fail. */
  ghost predicate CoreReady(w: World, binary: Path, daemon: Path, runtimeFiles: seq<Path>, target: string, ca: Path,
                            backendMax: int, channel: Option<string>) {
    && 0 < backendMax <= Elf.MAX_BACKEND_FILE && ChannelCode(channel).Some? && Trusted(w, target) && CaReadable(w, ca)
    && Ready(w, Elf.Machine(target).value, backendMax, runtimeFiles, [], binary, [binary, daemon], [], false, false,
             CoreBackends(binary, daemon), map[])
  }

  lemma LauncherMade(w: World, name: string, backend: string, channel: Option<string>, target: string)
    requires Safe(name) && RoleCode(backend).Some? && ChannelCode(channel).Some? && Trusted(w, target)
    ensures Launcher(w, name, backend, channel, target).Some?
  {
    hide Safe, Trusted;
    SafeBasename(name);
  }

  lemma StagedNames(machine: nat, backendMax: int, ns: string, before: Files, backends: seq<string>, n: Namespace, plugins: set<string>, s: Staged)
    requires StagedOk(machine, backendMax, ns, before, backends, n, plugins, s)
    ensures Basenames(s.dependencies) == n.selected.Keys
  {
  }

  lemma CoreSourced(w: World, machine: nat, backendMax: int, n: Namespace, backends: map<string, Path>, plugins: map<string, Path>,
                    staged: Files, cli: Bytes, service: Bytes, files: Files)
    requires Sourced(w, machine, backendMax, RUNTIME, n, backends, plugins, staged) && Launched(staged, cli, service, files)
    ensures Sourced(w, machine, backendMax, RUNTIME, n, backends, plugins, files)
  {
    hide Sourced;
    forall k | RUNTIME + "/" <= k ensures k !in CoreNames() {
      assert k[0] == (RUNTIME + "/")[0] == 'l';
    }
    SourcedKept(w, machine, backendMax, RUNTIME, n, backends, plugins, staged, files);
  }

  method AssembleCore(w: World, binary: Path, daemon: Path, runtimeFiles: seq<Path>, target: string, ca: Path,
                      backendMax: int, channel: Option<string>)
    returns (r: Option<(Files, Runtime)>)
    requires PatchKeepsMachine(w)
    ensures r.Some? ==> CoreOk(w, target, channel, backendMax, r.value.0, r.value.1)
    ensures r.Some? ==> exists n :: CoreFrom(w, binary, daemon, runtimeFiles, target, backendMax, n, r.value.0, r.value.1)
    ensures CoreReady(w, binary, daemon, runtimeFiles, target, ca, backendMax, channel) ==> r.Some?
  {
    hide Stageable, Sourced, From, Elements, Prefixed, CoreBackends, Launcher, PatchKeepsMachine, Safe, Basename, ElfOk, Basenames, Trusted, StrictBy, Elf.Machine, CoreOk, StagedOk, Launched, LaunchRecord;
    var machine := Elf.Machine(target);
    if Trusted(w, target) { TrustedMachine(w, target); }
    if !(0 < backendMax <= Elf.MAX_BACKEND_FILE) || ChannelCode(channel).None? || machine.None? || !Trusted(w, target) {
      return None;
    }
    var n := Resolved(w, machine.value, backendMax, runtimeFiles, [], binary, [binary, daemon], [], false, false);
    if n.None? {
      return None;
    }
    var bundle := w.read(ca);
    if bundle.None? || |bundle.value| > Elf.MAX_FILE || !w.caOk(bundle.value) {
      return None;
    }
    var plugins: map<string, Path> := map[];
    assert plugins.Keys == {};
    CoreBackendNames(binary, daemon);
    var staged := StageNamespace(w, machine.value, backendMax, RUNTIME, map[CA_BUNDLE := bundle.value], ["omux.bin", "omuxd.bin"],
                                 CoreBackends(binary, daemon), n.value, plugins);
    if staged.None? {
      return None;
    }
    var name := n.value.loaderName;
    LauncherMade(w, name, "omux.bin", channel, target);
    LauncherMade(w, name, "omuxd.bin", channel, target);
    var cli := LinuxLauncher(w, name, "omux.bin", channel, target);
    var service := LinuxLauncher(w, name, "omuxd.bin", channel, target);
    if cli.None? || service.None? {
      return None;
    }
    var runtime := Runtime(LibKey(RUNTIME, name), staged.value.dependencies, BACKEND_INTERPRETER, CA_BUNDLE,
                           LauncherInfo(1, target, w.templateSha), None);
    var files := staged.value.files;
    for i := 0 to |ALIASES|
      invariant files == AddAll(staged.value.files, ALIASES[..i], cli.value)
    {
      assert ALIASES[..i + 1][..i] == ALIASES[..i];
      files := files["bin/" + ALIASES[i] := cli.value];
    }
    assert ALIASES[..|ALIASES|] == ALIASES;
    files := files["bin/omuxd" := service.value];
    LaunchersAdded(staged.value.files, cli.value, service.value);
    CoreAssembled(w, target, channel, backendMax, n.value, bundle.value, staged.value, cli.value, service.value, files);
    CoreSourced(w, machine.value, backendMax, n.value, CoreBackends(binary, daemon), plugins, staged.value.files, cli.value, service.value, files);
    assert CoreFrom(w, binary, daemon, runtimeFiles, target, backendMax, n.value, files, runtime) by {
      StagedNames(machine.value, backendMax, RUNTIME, map[CA_BUNDLE := bundle.value], ["omux.bin", "omuxd.bin"], n.value, plugins.Keys, staged.value);
    }
    return Some((files, runtime));
  }

  function AddAll(files: Files, aliases: seq<string>, launcher: Bytes): Files {
    if aliases == [] then files
    else AddAll(files, aliases[..|aliases| - 1], launcher)["bin/" + aliases[|aliases| - 1] := launcher]
  }

  // ----- The Qt namespace -----

  function ParentName(p: Path): string {
    var rest := |p| - |LastPart(p)|;
    if rest == 0 then "" else LastPart(p[..rest - 1])
  }

  ghost predicate PluginName(n: string) { Safe(n) && EndsWith(n, ".so") }

  /** Files of the platforms directory, with names of their own. */
  ghost predicate PluginPaths(plugins: seq<Path>) {
    && (forall p :: p in plugins ==> ParentName(p) == "platforms" && PluginName(LastPart(p)))
    && (forall i, j :: 0 <= i < j < |plugins| ==> LastPart(plugins[i]) != LastPart(plugins[j]))
  }

  ghost predicate ByName(plugins: seq<Path>, sources: map<string, Path>) {
    && (forall p :: p in plugins ==> LastPart(p) in sources && sources[LastPart(p)] == p)
    && (forall n :: n in sources ==> sources[n] in plugins && LastPart(sources[n]) == n)
  }

  lemma Repeated(plugins: seq<Path>, i: nat, sources: map<string, Path>)
    requires i < |plugins| && ByName(plugins[..i], sources) && PluginPaths(plugins)
    ensures LastPart(plugins[i]) !in sources && ParentName(plugins[i]) == "platforms" && PluginName(LastPart(plugins[i]))
  {
    hide LastPart, PluginName, ParentName;
    assert plugins[i] in plugins;
    forall j | 0 <= j < i ensures plugins[..i][j] == plugins[j] {
    }
  }

  lemma NoPlugins()
    ensures ByName([], map[]) && PluginPaths([])
  {
  }

  lemma OneMore(plugins: seq<Path>, p: Path, sources: map<string, Path>)
    requires ByName(plugins, sources) && PluginPaths(plugins)
    requires LastPart(p) !in sources && ParentName(p) == "platforms" && PluginName(LastPart(p))
    ensures ByName(plugins + [p], sources[LastPart(p) := p]) && PluginPaths(plugins + [p])
  {
    hide LastPart, PluginName, ParentName;
    forall i | 0 <= i < |plugins| ensures LastPart(plugins[i]) != LastPart(p) {
      assert plugins[i] in plugins;
    }
  }

  /** The platform plugins by basename; another kind of file, or a name twice, is refused. */
  method PluginSources(plugins: seq<Path>) returns (r: Option<map<string, Path>>)
    ensures r.Some? <==> PluginPaths(plugins)
    ensures r.Some? ==> |r.value| == |plugins| && ByName(plugins, r.value) && forall n :: n in r.value ==> PluginName(n)
  {
    hide Safe, LastPart, ParentName, EndsWith, PluginPaths, ByName;
    var sources: map<string, Path> := map[];
    assert plugins[..0] == [] && ByName([], sources) && PluginPaths([]) by { NoPlugins(); }
    for i := 0 to |plugins|
      invariant |sources| == i && ByName(plugins[..i], sources) && PluginPaths(plugins[..i])
      invariant forall n :: n in sources ==> PluginName(n)
    {
      assert plugins[..i + 1] == plugins[..i] + [plugins[i]];
      var name := LastPart(plugins[i]);
      if ParentName(plugins[i]) != "platforms" || !EndsWith(name, ".so") || !Safe(name) || name in sources {
        if PluginPaths(plugins) {
          Repeated(plugins, i, sources);
        }
        return None;
      }
      OneMore(plugins[..i], plugins[i], sources);
      sources := sources[name := plugins[i]];
    }
    assert plugins[..|plugins|] == plugins;
    return Some(sources);
  }

  lemma PluginsListed(names: seq<string>, S: set<string>)
    requires Lists(names, S) && 0 < |S| <= 128 && forall n :: n in S ==> PluginName(n)
    ensures PluginsOk(Prefixed(QT_RUNTIME + "/plugins/platforms/", names))
  {
    hide Safe, Basename, StrictBy, Basenames;
    var prefix := QT_RUNTIME + "/plugins/platforms/";
    PrefixedNames(prefix, names);
    forall k | k in Prefixed(prefix, names) ensures EndsWith(k, ".so") {
      var i :| 0 <= i < |names| && k == prefix + names[i];
      assert names[i] in names;
      assert k[|k| - 3..] == names[i][|names[i]| - 3..];
    }
  }

  /** Staged files pass the verifier's reading of the graph. */
  lemma FilesGraph(machine: nat, closure: set<string>, b: seq<string>, d: seq<string>, p: seq<string>, before: Files, staged: Files, files: Files)
    requires FilesOk(machine, Elf.MAX_FILE, closure, b, d, p, before, staged) && Basenames(d) == closure
    requires forall k :: k in b + d + p ==> k in staged && k in files && files[k] == staged[k]
    ensures GraphOk(files, machine, b, d, p)
  {
  }

  lemma QtKeys()
    ensures Prefixed(QT_RUNTIME + "/libexec/", ["omux-control.bin"]) == [QT_CONTROL]
    ensures forall n :: QT_RUNTIME + "/lib/" + n != QT_CONFIG && QT_RUNTIME + "/lib/" + n != "bin/omux-control"
    ensures forall n :: QT_RUNTIME + "/plugins/platforms/" + n != QT_CONFIG && QT_RUNTIME + "/plugins/platforms/" + n != "bin/omux-control"
    ensures QT_CONTROL != QT_CONFIG && QT_CONTROL != "bin/omux-control" && QT_CONFIG != "bin/omux-control"
  {
    QtFixedKeys();
    QtNamesApart();
    hide QT_CONTROL, QT_CONFIG, QT_RUNTIME;
    forall n ensures QT_RUNTIME + "/lib/" + n != QT_CONFIG && (QT_RUNTIME + "/lib/" + n)[0] == 'l' {
      KeysApart(QT_RUNTIME, n, "qt.conf");
    }
    forall n ensures QT_RUNTIME + "/plugins/platforms/" + n != QT_CONFIG && (QT_RUNTIME + "/plugins/platforms/" + n)[0] == 'l' {
      KeysApart(QT_RUNTIME, "qt.conf", n);
    }
  }

  lemma QtFixedKeys()
    ensures QT_RUNTIME + "/libexec/" + "omux-control.bin" == QT_CONTROL && QT_RUNTIME + "/libexec/" + "qt.conf" == QT_CONFIG
  {
  }

  lemma QtNamesApart()
    ensures |QT_RUNTIME| > 0 && QT_RUNTIME[0] == 'l' && QT_CONTROL != "bin/omux-control" && QT_CONFIG != "bin/omux-control" && QT_CONTROL != QT_CONFIG
  {
    assert QT_CONTROL[|QT_CONTROL| - 1] == 'n' && QT_CONFIG[|QT_CONFIG| - 1] == 'f' && QT_CONFIG[0] == 'l' && QT_CONTROL[0] == 'l';
  }

  /** The audit as it is packaged: each canonical library bound to the bytes it was packaged with. */
  method Archive(w: World, files: Files, audit: Witness, target: string, dependencies: seq<string>) returns (a: Archived)
    requires Canonical(audit, target) == Some(audit) && QT_CONTROL in files
    requires forall l :: l in audit.libraries ==> LibKey(QT_RUNTIME, l.soname) in dependencies && LibKey(QT_RUNTIME, l.soname) in files
    ensures ArchivedOk(w, files, target, dependencies, a) && a.audit == audit
  {
    hide Canonical;
    var artifacts: seq<Artifact> := [];
    for i := 0 to |audit.libraries|
      invariant |artifacts| == i
      invariant forall j :: 0 <= j < i ==>
                  LibKey(QT_RUNTIME, audit.libraries[j].soname) in files
                  && artifacts[j] == Artifact(LibKey(QT_RUNTIME, audit.libraries[j].soname), w.sha(files[LibKey(QT_RUNTIME, audit.libraries[j].soname)]))
    {
      assert audit.libraries[i] in audit.libraries;
      var path := LibKey(QT_RUNTIME, audit.libraries[i].soname);
      artifacts := artifacts + [Artifact(path, w.sha(files[path]))];
    }
    return Archived(audit, artifacts, Artifact(QT_CONTROL, w.sha(files[QT_CONTROL])));
  }

  /** The staged files with the launcher and the configuration beside them. */
  ghost predicate QtFiles(s: Staged, launcher: Bytes, config: Bytes, files: Files) {
    && files.Keys == s.files.Keys + {"bin/omux-control", QT_CONFIG}
    && files["bin/omux-control"] == launcher && files[QT_CONFIG] == config
    && forall k :: k in s.files && k != "bin/omux-control" && k != QT_CONFIG ==> files[k] == s.files[k]
  }

  lemma QtGraph(machine: nat, n: Namespace, plugins: set<string>, s: Staged, launcher: Bytes, config: Bytes, files: Files)
    requires StagedOk(machine, Elf.MAX_FILE, QT_RUNTIME, map[], ["omux-control.bin"], n, plugins, s) && QtFiles(s, launcher, config, files)
    requires 0 < |plugins| <= 128 && forall x :: x in plugins ==> PluginName(x)
    ensures GraphOk(files, machine, [QT_CONTROL], s.dependencies, s.plugins) && PluginsOk(s.plugins)
    ensures files.Keys == {"bin/omux-control", QT_CONTROL, QT_CONFIG} + Elements(s.plugins) + Elements(s.dependencies)
  {
    hide ElfOk, Basenames, StrictBy, PluginName, PluginsOk, GraphOk, Basename, FilesOk;
    QtKeys();
    var names :| Lists(names, plugins) && s.plugins == Prefixed(QT_RUNTIME + "/plugins/platforms/", names);
    PluginsListed(names, plugins);
    QtSame(machine, n.selected.Keys, names, s, launcher, config, files);
    FilesGraph(machine, n.selected.Keys, [QT_CONTROL], s.dependencies, s.plugins, map[], s.files, files);
  }

  lemma StagedKeys(machine: nat, closure: set<string>, s: Staged)
    requires FilesOk(machine, Elf.MAX_FILE, closure, [QT_CONTROL], s.dependencies, s.plugins, map[], s.files)
    ensures s.files.Keys == {QT_CONTROL} + Elements(s.dependencies) + Elements(s.plugins)
  {
    hide ElfOk;
    assert Elements([QT_CONTROL]) == {QT_CONTROL};
  }

  lemma QtSame(machine: nat, closure: set<string>, names: seq<string>, s: Staged, launcher: Bytes, config: Bytes, files: Files)
    requires FilesOk(machine, Elf.MAX_FILE, closure, [QT_CONTROL], s.dependencies, s.plugins, map[], s.files) && QtFiles(s, launcher, config, files)
    requires s.plugins == Prefixed(QT_RUNTIME + "/plugins/platforms/", names)
    requires forall d :: d in s.dependencies ==> Basename(d).Some? && d == LibKey(QT_RUNTIME, Basename(d).value)
    ensures forall k :: k in [QT_CONTROL] + s.dependencies + s.plugins ==> k in s.files && k in files && files[k] == s.files[k]
    ensures files.Keys == {"bin/omux-control", QT_CONTROL, QT_CONFIG} + Elements(s.plugins) + Elements(s.dependencies)
  {
    StagedKeys(machine, closure, s);
    hide FilesOk, Basename, QT_CONTROL, QT_CONFIG, QT_RUNTIME;
    QtKeys();
    forall k | k in s.plugins ensures k != "bin/omux-control" && k != QT_CONFIG {
      var i :| 0 <= i < |names| && k == QT_RUNTIME + "/plugins/platforms/" + names[i];
    }
    forall k | k in s.dependencies ensures k != "bin/omux-control" && k != QT_CONFIG {
      assert k == QT_RUNTIME + "/lib/" + Basename(k).value;
    }
  }

  ghost predicate QtPart(w: World, target: string, channel: Option<string>, files: Files, qt: Qt) {
    && Elf.Machine(target).Some? && QtOk(w, files, channel, target, Elf.Machine(target).value, qt)
    && files.Keys == QtNames(qt)
  }

  /** No audit, or a valid one for exactly this control executable. */
  predicate AuditFits(w: World, machine: nat, control: Path, audit: Option<Witness>, target: string) {
    audit.None? ||
    var c, file := Canonical(audit.value, target), Inspect(w, machine, Elf.MAX_FILE, control, true);
    c.Some? && file.Some? && w.sha(file.value.0) == c.value.controlSha256
  }

  /** The audited libraries that steer the resolution. */
  function AuditedLibraries(audit: Option<Witness>, target: string): seq<Audited> {
    if audit.Some? && Canonical(audit.value, target).Some? then Canonical(audit.value, target).value.libraries else []
  }

  /** Inputs from which the Qt namespace cannot fail. */
  ghost predicate QtReady(w: World, control: Path, runtimeFiles: seq<Path>, target: string, ca: Path, plugins: seq<Path>,
                          audit: Option<Witness>, channel: Option<string>) {
    && ChannelCode(channel).Some? && Trusted(w, target) && CaReadable(w, ca)
    && 0 < |plugins| <= 128 && PluginPaths(plugins) && AuditFits(w, Elf.Machine(target).value, control, audit, target)
    && forall sources :: ByName(plugins, sources) ==>
         Ready(w, Elf.Machine(target).value, Elf.MAX_FILE, runtimeFiles, AuditedLibraries(audit, target), control, [control], plugins, true,
               audit.Some?, QtBackends(control), sources)
  }

  /** The audit, checked against the control executable it was made for. */
  method CheckedAudit(w: World, machine: nat, control: Path, audit: Option<Witness>, target: string) returns (ok: bool, r: Option<Witness>)
    ensures ok <==> AuditFits(w, machine, control, audit, target)
    ensures ok ==> r == if audit.None? then None else Canonical(audit.value, target)
    ensures ok && audit.Some? ==> r.Some? && Canonical(r.value, target) == r
  {
    hide WitnessOk, SortBy;
    if audit.None? {
      return true, None;
    }
    r := Canonical(audit.value, target);
    if r.None? {
      return false, None;
    }
    CanonicalIdempotent(audit.value, target);
    var file := Inspect(w, machine, Elf.MAX_FILE, control, true);
    ok := file.Some? && w.sha(file.value.0) == r.value.controlSha256;
  }

  method AssembleQt(w: World, control: Path, runtimeFiles: seq<Path>, target: string, ca: Path, plugins: seq<Path>,
                    audit: Option<Witness>, channel: Option<string>)
    returns (r: Option<(Files, Qt)>)
    requires PatchKeepsMachine(w)
    ensures r.Some? ==> QtPart(w, target, channel, r.value.0, r.value.1)
    ensures r.Some? ==> exists n, sources :: QtFrom(w, control, runtimeFiles, target, plugins, audit, sources, n, r.value.0, r.value.1)
    ensures QtReady(w, control, runtimeFiles, target, ca, plugins, audit, channel) ==> r.Some?
  {
    hide Stageable, PluginPaths, ByName, AuditFits, Sourced, From, Elements, Prefixed, QtBackends, QtPart, StagedOk, QtFiles, PatchKeepsMachine, Safe, Basename, ElfOk, Basenames, Trusted, StrictBy, Elf.Machine, LaunchRecord, PluginName, PluginsOk,
         GraphOk, FilesOk, Canonical, Launcher, ArchivedOk;
    var machine := Elf.Machine(target);
    if Trusted(w, target) { TrustedMachine(w, target); }
    if machine.None? || !Trusted(w, target) || !(0 < |plugins| <= 128) {
      return None;
    }
    var sources := PluginSources(plugins);
    if sources.None? {
      return None;
    }
    var fine, checked := CheckedAudit(w, machine.value, control, audit, target);
    if !fine {
      return None;
    }
    var libraries := if checked.Some? then checked.value.libraries else [];
    var n := Resolved(w, machine.value, Elf.MAX_FILE, runtimeFiles, libraries, control, [control], plugins, true, checked.Some?);
    if n.None? {
      return None;
    }
    var bundle := w.read(ca);
    if bundle.None? || |bundle.value| > Elf.MAX_FILE || !w.caOk(bundle.value) {
      return None;
    }
    QtBackendNames(control);
    var staged := StageNamespace(w, machine.value, Elf.MAX_FILE, QT_RUNTIME, map[], ["omux-control.bin"],
                                 QtBackends(control), n.value, sources.value);
    if staged.None? {
      return None;
    }
    var finished := FinishQt(w, target, channel, n.value, sources.value, checked, libraries, staged.value);
    if finished.None? {
      return None;
    }
    QtSourced(w, machine.value, n.value, control, sources.value, staged.value, finished.value.0["bin/omux-control"], w.qtConfig, finished.value.0);
    assert QtFrom(w, control, runtimeFiles, target, plugins, audit, sources.value, n.value, finished.value.0, finished.value.1) by {
      StagedNames(machine.value, Elf.MAX_FILE, QT_RUNTIME, map[], ["omux-control.bin"], n.value, sources.value.Keys, staged.value);
    }
    return finished;
  }

  /** Launcher, configuration and audit beside the staged files. */
  method FinishQt(w: World, target: string, channel: Option<string>, n: Namespace, sources: map<string, Path>, checked: Option<Witness>,
                  libraries: seq<Audited>, staged: Staged)
    returns (r: Option<(Files, Qt)>)
    requires Elf.Machine(target).Some? && Safe(n.loaderName) && 0 < |sources| <= 128 && forall x :: x in sources ==> PluginName(x)
    requires StagedOk(Elf.Machine(target).value, Elf.MAX_FILE, QT_RUNTIME, map[], ["omux-control.bin"], n, sources.Keys, staged)
    requires checked.Some? ==> Canonical(checked.value, target) == checked && checked.value.libraries == libraries
    requires checked.Some? ==> forall a :: a in libraries ==> a.soname in n.selected
    ensures r.Some? ==> QtPart(w, target, channel, r.value.0, r.value.1)
    ensures r.Some? ==> "bin/omux-control" in r.value.0 && QtFiles(staged, r.value.0["bin/omux-control"], w.qtConfig, r.value.0)
    ensures r.Some? ==> r.value.1.loader == LibKey(QT_RUNTIME, n.loaderName) && r.value.1.dependencies == staged.dependencies
    ensures ChannelCode(channel).Some? && Trusted(w, target) ==> r.Some?
    ensures r.Some? ==> (r.value.1.audit.Some? <==> checked.Some?) && (checked.Some? ==> r.value.1.audit.value.audit == checked.value)
  {
    hide Safe, Basename, ElfOk, Basenames, StrictBy, Elf.Machine, LaunchRecord, PluginName, PluginsOk, GraphOk, FilesOk, Canonical, Launcher,
         ArchivedOk, Prefixed, ChannelCode, Trusted;
    var name := n.loaderName;
    if ChannelCode(channel).Some? && Trusted(w, target) {
      LauncherMade(w, name, "omux-control.bin", channel, target);
    }
    var launcher := LinuxLauncher(w, name, "omux-control.bin", channel, target);
    if launcher.None? {
      return None;
    }
    var files := staged.files["bin/omux-control" := launcher.value][QT_CONFIG := w.qtConfig];
    assert QtFiles(staged, launcher.value, w.qtConfig, files) by { QtKeys(); }
    QtGraph(Elf.Machine(target).value, n, sources.Keys, staged, launcher.value, w.qtConfig, files);
    SameLauncher(w, name, QT_RUNTIME, "omux-control.bin", channel, target);
    var archived: Option<Archived> := None;
    if checked.Some? {
      AuditPackaged(staged, n, libraries, files);
      var a := Archive(w, files, checked.value, target, staged.dependencies);
      archived := Some(a);
    }
    return Some((files, Qt(LibKey(QT_RUNTIME, name), staged.dependencies, QT_CONTROL, QT_CONFIG, staged.plugins, archived)));
  }

  function QtBackends(control: Path): map<string, Path> { map["omux-control.bin" := control] }

  lemma QtBackendNames(control: Path)
    ensures Elements(["omux-control.bin"]) == QtBackends(control).Keys
  {
  }

  /** The same for the Qt namespace; the audited libraries steer its resolution. */
  ghost predicate QtFrom(w: World, control: Path, runtimeFiles: seq<Path>, target: string, plugins: seq<Path>, audit: Option<Witness>,
                         sources: map<string, Path>, n: Namespace, files: Files, qt: Qt) {
    && Elf.Machine(target).Some?
    && From(w, Elf.Machine(target).value, Elf.MAX_FILE, runtimeFiles, AuditedLibraries(audit, target), control, [control], plugins, true,
            audit.Some?, n)
    && (qt.audit.Some? <==> audit.Some?) && (qt.audit.Some? ==> Canonical(audit.value, target) == Some(qt.audit.value.audit))
    && ByName(plugins, sources)
    && qt.loader == LibKey(QT_RUNTIME, n.loaderName) && Basenames(qt.dependencies) == n.selected.Keys
    && Sourced(w, Elf.Machine(target).value, Elf.MAX_FILE, QT_RUNTIME, n, QtBackends(control), sources, files)
  }

  lemma QtSourced(w: World, machine: nat, n: Namespace, control: Path, sources: map<string, Path>, s: Staged, launcher: Bytes, config: Bytes, files: Files)
    requires Sourced(w, machine, Elf.MAX_FILE, QT_RUNTIME, n, QtBackends(control), sources, s.files) && QtFiles(s, launcher, config, files)
    ensures Sourced(w, machine, Elf.MAX_FILE, QT_RUNTIME, n, QtBackends(control), sources, files)
  {
    hide Packed;
    QtKeys();
    forall x | x in QtBackends(control) ensures QT_RUNTIME + "/libexec/" + x != QT_CONFIG && QT_RUNTIME + "/libexec/" + x != "bin/omux-control" {
      assert Prefixed(QT_RUNTIME + "/libexec/", ["omux-control.bin"])[0] == QT_RUNTIME + "/libexec/" + x;
    }
    PackedKept(w, machine, Elf.MAX_FILE, n.loader, QT_RUNTIME + "/libexec/", QtBackends(control).Keys, QtBackends(control), Backend, s.files, files);
    PackedKept(w, machine, Elf.MAX_FILE, n.loader, QT_RUNTIME + "/lib/", n.selected.Keys, n.selected, Library, s.files, files);
    PackedKept(w, machine, Elf.MAX_FILE, n.loader, QT_RUNTIME + "/plugins/platforms/", sources.Keys, sources, Plugin, s.files, files);
  }

  lemma SameLauncher(w: World, name: string, ns: string, backend: string, channel: Option<string>, target: string)
    requires Safe(name)
    ensures Launcher(w, LibKey(ns, name), backend, channel, target) == Launcher(w, name, backend, channel, target)
  {
    hide Safe, Basename, Trusted, LaunchRecord, RoleCode, ChannelCode;
    SafeBasename(name);
    assert Basename(LibKey(ns, name)) == Basename(name);
  }

  lemma AuditPackaged(s: Staged, n: Namespace, libraries: seq<Audited>, files: Files)
    requires Basenames(s.dependencies) == n.selected.Keys && (forall d :: d in s.dependencies ==> d in files)
    requires forall d :: d in s.dependencies ==> Basename(d).Some? && d == LibKey(QT_RUNTIME, Basename(d).value)
    requires forall a :: a in libraries ==> a.soname in n.selected
    ensures forall a :: a in libraries ==> LibKey(QT_RUNTIME, a.soname) in s.dependencies && LibKey(QT_RUNTIME, a.soname) in files
  {
  }

  // ----- Both -----

  /** The executables fit the verifier's limit. */
  predicate BackendsFit(files: Files) {
    OMUX in files && OMUXD in files && |files[OMUX]| <= Elf.MAX_FILE && |files[OMUXD]| <= Elf.MAX_FILE
  }

  /** The executable, patched, is within the verifier's limit. */
  predicate PatchedFits(w: World, p: Path) {
    w.read(p).Some? && w.patch(w.read(p).value, Backend).Some? && |w.patch(w.read(p).value, Backend).value| <= Elf.MAX_FILE
  }

  lemma FitsByInputs(w: World, binary: Path, daemon: Path, runtimeFiles: seq<Path>, target: string, backendMax: int,
                     n: Namespace, files: Files, r: Runtime)
    requires CoreFrom(w, binary, daemon, runtimeFiles, target, backendMax, n, files, r)
    ensures BackendsFit(files) <==> PatchedFits(w, binary) && PatchedFits(w, daemon)
  {
    hide From, LibKey, Basenames, Packed, Packaged, PatchedFits, Elf.Machine, OMUX, OMUXD, RUNTIME;
    var machine := Elf.Machine(target).value;
    var prefix, sources := RUNTIME + "/libexec/", CoreBackends(binary, daemon);
    ExecutableKeys();
    assert sources["omux.bin"] == binary && sources["omuxd.bin"] == daemon;
    PackedOne(w, machine, backendMax, n.loader, prefix, sources.Keys, sources, Backend, files, "omux.bin");
    PackedOne(w, machine, backendMax, n.loader, prefix, sources.Keys, sources, Backend, files, "omuxd.bin");
    PackagedFits(w, machine, backendMax, binary, n.loader);
    PackagedFits(w, machine, backendMax, daemon, n.loader);
  }

  lemma ExecutableKeys()
    ensures RUNTIME + "/libexec/" + "omux.bin" == OMUX && RUNTIME + "/libexec/" + "omuxd.bin" == OMUXD
  {
  }

  lemma PackedOne(w: World, machine: nat, backendMax: int, loader: Path, prefix: string, names: set<string>,
                  sources: map<string, Path>, role: Role, files: Files, x: string)
    requires Packed(w, machine, backendMax, loader, prefix, names, sources, role, files) && x in names
    ensures x in sources && prefix + x in files && Packaged(w, machine, backendMax, sources[x], loader, role) == Some(files[prefix + x])
  {
  }

  lemma PackagedFits(w: World, machine: nat, backendMax: int, source: Path, loader: Path)
    requires Packaged(w, machine, backendMax, source, loader, Backend).Some?
    ensures PatchedFits(w, source) <==> |Packaged(w, machine, backendMax, source, loader, Backend).value| <= Elf.MAX_FILE
  {
    hide Elf.Metadata;
  }

  lemma CoreGraph(machine: nat, backendMax: int, core: Files, dependencies: seq<string>, files: Files)
    requires CoreElves(machine, backendMax, core, dependencies)
    requires forall k :: k in core ==> k in files && files[k] == core[k]
    ensures GraphOk(files, machine, [OMUX, OMUXD], dependencies, []) <==> BackendsFit(files)
    ensures backendMax <= Elf.MAX_FILE ==> BackendsFit(files)
  {
  }

  /** More files beside them do not change what the verifier sees of the Qt namespace. */
  lemma QtMore(w: World, target: string, channel: Option<string>, part: Files, qt: Qt, files: Files)
    requires QtPart(w, target, channel, part, qt) && forall k :: k in part ==> k in files && files[k] == part[k]
    ensures QtOk(w, files, channel, target, Elf.Machine(target).value, qt)
  {
    hide ElfOk, Basenames, PluginsOk, DependenciesOk, Canonical, Launcher, Elf.Machine;
  }

  lemma CoreMore(w: World, target: string, channel: Option<string>, core: Files, loader: string, files: Files)
    requires CaOk(w, core) && LaunchersOk(w, target, channel, core, loader)
    requires forall k :: k in core ==> k in files && files[k] == core[k]
    ensures CaOk(w, files) && LaunchersOk(w, target, channel, files, loader)
  {
    hide Launcher;
  }

  datatype QtInput = QtInput(control: Option<Path>, plugins: seq<Path>, audit: Option<Witness>, runtimeFiles: Option<seq<Path>>)

  predicate QtInputOk(q: QtInput) {
    if q.control.None? then q.plugins == [] && q.audit.None? && q.runtimeFiles.None?
    else q.plugins != [] && q.runtimeFiles.Some? && q.runtimeFiles.value != []
  }

  /** Inputs from which assembly cannot fail. */
  ghost predicate Assemblable(w: World, binary: Path, daemon: Path, runtimeFiles: seq<Path>, target: string, ca: Path, q: QtInput,
                              backendMax: int, channel: Option<string>) {
    && QtInputOk(q) && CoreReady(w, binary, daemon, runtimeFiles, target, ca, backendMax, channel)
    && (q.control.Some? ==> QtReady(w, q.control.value, q.runtimeFiles.value, target, ca, q.plugins, q.audit, channel))
  }

  lemma CoreLimits(w: World, binary: Path, daemon: Path, runtimeFiles: seq<Path>, target: string, ca: Path, backendMax: int, channel: Option<string>)
    requires CoreReady(w, binary, daemon, runtimeFiles, target, ca, backendMax, channel)
    ensures 0 < backendMax <= Elf.MAX_BACKEND_FILE && ChannelCode(channel).Some?
  {
  }

  /** The two namespaces share no name. */
  lemma NamespacesApart(w: World, target: string, channel: Option<string>, backendMax: int, files: Files, runtime: Runtime, qtFiles: Files, qt: Qt)
    requires CoreOk(w, target, channel, backendMax, files, runtime) && QtPart(w, target, channel, qtFiles, qt)
    ensures qtFiles.Keys * files.Keys == {}
  {
    hide ElfOk, GraphOk, Basename, CoreElves, CaOk, LaunchersOk, Trusted, Launcher, ArchivedOk, StrictBy, Elf.Machine, ChannelCode;
    forall k | k in files ensures k !in qtFiles {
      CoreFirst(runtime, k);
      if k in QtNames(qt) { QtFirst(qt, k); }
    }
  }

  lemma CoreFirst(r: Runtime, k: string)
    requires k in CoreNames() + {OMUX, OMUXD, CA_BUNDLE} + Elements(r.dependencies)
    requires forall d :: d in r.dependencies ==> Basename(d).Some? && d == LibKey(RUNTIME, Basename(d).value)
    ensures k != "bin/omux-control" && !(|k| > 9 && k[0] == 'l' && k[9] == 'q')
  {
    hide Basename, LibKey;
    if k in r.dependencies {
      KeyFirst(RUNTIME, Basename(k).value);
    } else if k in CoreNames() {
      assert k[0] == 'b' && k != "bin/omux-control";
    }
  }

  lemma KeyFirst(ns: string, n: string)
    ensures ns == RUNTIME ==> |LibKey(ns, n)| > 9 && LibKey(ns, n)[0] == 'l' && LibKey(ns, n)[9] == 'l'
    ensures ns == QT_RUNTIME ==> |LibKey(ns, n)| > 9 && LibKey(ns, n)[0] == 'l' && LibKey(ns, n)[9] == 'q'
  {
  }

  lemma QtFirst(qt: Qt, k: string)
    requires k in QtNames(qt) && k != "bin/omux-control"
    requires forall d :: d in qt.dependencies ==> Basename(d).Some? && d == LibKey(QT_RUNTIME, Basename(d).value)
    requires forall p :: p in qt.plugins ==> Basename(p).Some? && p == PluginKey(Basename(p).value)
    ensures |k| > 9 && k[0] == 'l' && k[9] == 'q'
  {
    hide Basename, LibKey, PluginKey;
    if k in qt.dependencies {
      KeyFirst(QT_RUNTIME, Basename(k).value);
    } else if k in qt.plugins {
      PluginFirst(Basename(k).value);
    }
  }

  lemma PluginFirst(n: string)
    ensures |PluginKey(n)| > 9 && PluginKey(n)[0] == 'l' && PluginKey(n)[9] == 'q'
  {
  }

  /**
    Whatever is assembled is accepted by the verifier under the same target and channel, with or
    without the Qt namespace and its audit, exactly when the two executables, patched, are within the
    verifier's file limit; with the default limit they always are.  And something is assembled
    whenever the inputs are admissible and every resolution of them can be packaged.
  */
  method AssembleLinux(w: World, binary: Path, daemon: Path, runtimeFiles: seq<Path>, target: string, ca: Path, q: QtInput,
                       backendMax: int, channel: Option<string>)
    returns (r: Option<(Files, Runtime)>)
    requires PatchKeepsMachine(w)
    ensures r.Some? ==> (Accepts(w, r.value.0, Manifest(target, channel, r.value.1)) <==> PatchedFits(w, binary) && PatchedFits(w, daemon))
    ensures r.Some? && backendMax <= Elf.MAX_FILE ==> Accepts(w, r.value.0, Manifest(target, channel, r.value.1))
    ensures r.Some? ==> (r.value.1.qt.Some? <==> q.control.Some?)
    ensures r.Some? ==> exists n :: CoreFrom(w, binary, daemon, runtimeFiles, target, backendMax, n, r.value.0, r.value.1)
    ensures r.Some? && q.control.Some? ==> q.runtimeFiles.Some? && r.value.1.qt.Some? && exists n, sources ::
              QtFrom(w, q.control.value, q.runtimeFiles.value, target, q.plugins, q.audit, sources, n, r.value.0, r.value.1.qt.value)
    ensures Assemblable(w, binary, daemon, runtimeFiles, target, ca, q, backendMax, channel) ==> r.Some?
  {
    hide CoreReady, QtReady, CoreFrom, QtFrom, PatchKeepsMachine, CoreOk, Accepts, BackendsFit, PatchedFits;
    if CoreReady(w, binary, daemon, runtimeFiles, target, ca, backendMax, channel) {
      CoreLimits(w, binary, daemon, runtimeFiles, target, ca, backendMax, channel);
    }
    if !(0 < backendMax <= Elf.MAX_BACKEND_FILE) || ChannelCode(channel).None? || !QtInputOk(q) {
      return None;
    }
    var core := AssembleCore(w, binary, daemon, runtimeFiles, target, ca, backendMax, channel);
    if core.None? {
      return None;
    }
    var (files, runtime) := core.value;
    if q.control.None? {
      CoreAccepted(w, target, channel, backendMax, files, runtime);
      r := core;
    } else {
      r := WithQt(w, binary, daemon, runtimeFiles, target, ca, q, backendMax, channel, files, runtime);
    }
    if r.Some? {
      ghost var n :| CoreFrom(w, binary, daemon, runtimeFiles, target, backendMax, n, r.value.0, r.value.1);
      FitsByInputs(w, binary, daemon, runtimeFiles, target, backendMax, n, r.value.0, r.value.1);
    }
  }

  /** The Qt namespace beside the first one; their names never overlap. */
  method WithQt(w: World, binary: Path, daemon: Path, runtimeFiles: seq<Path>, target: string, ca: Path, q: QtInput,
                backendMax: int, channel: Option<string>, files: Files, runtime: Runtime)
    returns (r: Option<(Files, Runtime)>)
    requires PatchKeepsMachine(w) && q.control.Some? && q.runtimeFiles.Some? && CoreOk(w, target, channel, backendMax, files, runtime)
    requires exists n :: CoreFrom(w, binary, daemon, runtimeFiles, target, backendMax, n, files, runtime)
    ensures r.Some? ==> (Accepts(w, r.value.0, Manifest(target, channel, r.value.1)) <==> BackendsFit(r.value.0))
    ensures r.Some? && backendMax <= Elf.MAX_FILE ==> Accepts(w, r.value.0, Manifest(target, channel, r.value.1))
    ensures r.Some? ==> r.value.1.qt.Some?
    ensures QtReady(w, q.control.value, q.runtimeFiles.value, target, ca, q.plugins, q.audit, channel) ==> r.Some?
    ensures r.Some? ==> exists n :: CoreFrom(w, binary, daemon, runtimeFiles, target, backendMax, n, r.value.0, r.value.1)
    ensures r.Some? ==> exists n, sources ::
              QtFrom(w, q.control.value, q.runtimeFiles.value, target, q.plugins, q.audit, sources, n, r.value.0, r.value.1.qt.value)
  {
    hide QtReady, CoreFrom, QtFrom, PatchKeepsMachine, CoreOk, QtPart, Accepts, BackendsFit;
    var part := AssembleQt(w, q.control.value, q.runtimeFiles.value, target, ca, q.plugins, q.audit, channel);
    if part.None? {
      return None;
    }
    var (qtFiles, qt) := part.value;
    if qtFiles.Keys * files.Keys != {} {
      NamespacesApart(w, target, channel, backendMax, files, runtime, qtFiles, qt);
      assert false;
    }
    var all, full := files + qtFiles, runtime.(qt := Some(qt));
    forall k | k in files ensures k in all && all[k] == files[k] {
      assert k !in qtFiles.Keys * files.Keys;
    }
    CoreFromMore(w, binary, daemon, runtimeFiles, target, backendMax, files, runtime, all, full);
    QtFromMore(w, q.control.value, q.runtimeFiles.value, target, q.plugins, q.audit, qtFiles, all, qt);
    BothAccepted(w, target, channel, backendMax, files, runtime, qtFiles, qt, all);
    return Some((all, full));
  }

  lemma CoreAccepted(w: World, target: string, channel: Option<string>, backendMax: int, files: Files, runtime: Runtime)
    requires CoreOk(w, target, channel, backendMax, files, runtime)
    ensures runtime.qt.None?
    ensures var m := Manifest(target, channel, runtime);
            (Accepts(w, files, m) <==> BackendsFit(files)) && (backendMax <= Elf.MAX_FILE ==> Accepts(w, files, m))
  {
    hide CoreMeta, CaOk, LaunchersOk, GraphOk, CoreElves, QtOk, BackendsFit, QtNames, CoreNames, OMUX, OMUXD, CA_BUNDLE, Elements;
    MetaMachine(w, target, channel, runtime);
    CoreGraph(Elf.Machine(target).value, backendMax, files, runtime.dependencies, files);
  }

  /** Two namespaces that are fine by themselves are fine together. */
  lemma BothAccepted(w: World, target: string, channel: Option<string>, backendMax: int, files: Files, runtime: Runtime,
                     qtFiles: Files, qt: Qt, all: Files)
    requires CoreOk(w, target, channel, backendMax, files, runtime) && QtPart(w, target, channel, qtFiles, qt)
    requires all.Keys == files.Keys + qtFiles.Keys
    requires (forall k :: k in files ==> all[k] == files[k]) && forall k :: k in qtFiles ==> all[k] == qtFiles[k]
    ensures var m := Manifest(target, channel, runtime.(qt := Some(qt)));
            (Accepts(w, all, m) <==> BackendsFit(all)) && (backendMax <= Elf.MAX_FILE ==> Accepts(w, all, m))
  {
    hide CoreMeta, CaOk, LaunchersOk, GraphOk, CoreElves, QtOk, BackendsFit, QtNames, CoreNames, OMUX, OMUXD, CA_BUNDLE, Elements;
    MetaMachine(w, target, channel, runtime);
    CoreGraph(Elf.Machine(target).value, backendMax, files, runtime.dependencies, all);
    CoreMore(w, target, channel, files, runtime.loader, all);
    QtMore(w, target, channel, qtFiles, qt, all);
    MetaSame(w, target, channel, runtime, runtime.(qt := Some(qt)));
  }

  lemma CoreFromMore(w: World, binary: Path, daemon: Path, runtimeFiles: seq<Path>, target: string, backendMax: int,
                     files: Files, r: Runtime, all: Files, full: Runtime)
    requires exists n :: CoreFrom(w, binary, daemon, runtimeFiles, target, backendMax, n, files, r)
    requires full == r.(qt := full.qt) && forall k :: k in files ==> k in all && all[k] == files[k]
    ensures exists n :: CoreFrom(w, binary, daemon, runtimeFiles, target, backendMax, n, all, full)
  {
    hide From, Sourced, Basenames, LibKey, CoreBackends;
    var n :| CoreFrom(w, binary, daemon, runtimeFiles, target, backendMax, n, files, r);
    SourcedKept(w, Elf.Machine(target).value, backendMax, RUNTIME, n, CoreBackends(binary, daemon), map[], files, all);
    assert CoreFrom(w, binary, daemon, runtimeFiles, target, backendMax, n, all, full);
  }

  lemma QtFromMore(w: World, control: Path, runtimeFiles: seq<Path>, target: string, plugins: seq<Path>, audit: Option<Witness>,
                   files: Files, all: Files, qt: Qt)
    requires exists n, sources :: QtFrom(w, control, runtimeFiles, target, plugins, audit, sources, n, files, qt)
    requires forall k :: k in files ==> k in all && all[k] == files[k]
    ensures exists n, sources :: QtFrom(w, control, runtimeFiles, target, plugins, audit, sources, n, all, qt)
  {
    hide From, ByName, Canonical, AuditedLibraries, Sourced, Basenames, LibKey, QtBackends;
    var n, sources :| QtFrom(w, control, runtimeFiles, target, plugins, audit, sources, n, files, qt);
    SourcedKept(w, Elf.Machine(target).value, Elf.MAX_FILE, QT_RUNTIME, n, QtBackends(control), sources, files, all);
    assert QtFrom(w, control, runtimeFiles, target, plugins, audit, sources, n, all, qt);
  }

  lemma MetaSame(w: World, target: string, channel: Option<string>, r: Runtime, s: Runtime)
    requires CoreMeta(w, target, channel, r) && s == r.(qt := s.qt)
    ensures CoreMeta(w, target, channel, s)
  {
  }

  /** The verifier itself. */
  method VerifyLinuxRuntime(w: World, files: Files, m: Manifest) returns (ok: bool)
    ensures ok <==> Accepts(w, files, m)
  {
    hide GraphOk, LaunchersOk, CaOk, QtOk, Launcher, QtNames, CoreNames, CoreMeta;
    var r := m.runtime;
    if !CoreMeta(w, m.target, m.channel, r) {
      return false;
    }
    assert Elf.Machine(m.target).Some? by { MetaMachine(w, m.target, m.channel, r); }
    if files.Keys != CoreNames() + {OMUX, OMUXD, CA_BUNDLE} + Elements(r.dependencies) + (if r.qt.Some? then QtNames(r.qt.value) else {}) {
      return false;
    }
    var machine := Elf.Machine(m.target).value;
    if r.qt.Some? {
      var qt := VerifyQt(w, files, m.channel, m.target, machine, r.qt.value);
      if !qt {
        return false;
      }
    }
    if !CaOk(w, files) {
      return false;
    }
    var graph := CheckGraph(files, machine, [OMUX, OMUXD], r.dependencies, []);
    return graph && LaunchersOk(w, m.target, m.channel, files, r.loader);
  }

  lemma MetaMachine(w: World, target: string, channel: Option<string>, r: Runtime)
    requires CoreMeta(w, target, channel, r)
    ensures Elf.Machine(target).Some?
  {
  }

  method VerifyQt(w: World, files: Files, channel: Option<string>, target: string, machine: nat, qt: Qt) returns (ok: bool)
    ensures ok <==> QtOk(w, files, channel, target, machine, qt)
  {
    hide DependenciesOk, PluginsOk, Launcher, ArchivedOk, GraphOk;
    if !DependenciesOk(QT_RUNTIME, qt.loader, qt.dependencies) || qt.control != QT_CONTROL || qt.config != QT_CONFIG || !PluginsOk(qt.plugins) {
      return false;
    }
    if QT_CONFIG !in files || files[QT_CONFIG] != w.qtConfig || "bin/omux-control" !in files {
      return false;
    }
    var launcher := LinuxLauncher(w, qt.loader, "omux-control.bin", channel, target);
    if launcher != Some(files["bin/omux-control"]) || (qt.audit.Some? && !ArchivedOk(w, files, target, qt.dependencies, qt.audit.value)) {
      return false;
    }
    ok := CheckGraph(files, machine, [QT_CONTROL], qt.dependencies, qt.plugins);
  }
}
