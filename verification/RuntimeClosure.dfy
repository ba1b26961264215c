/**
  Dependency resolution of delivery/portable.py: which declared file a library name means to an
  owner, and the worklist of `_assemble_namespace` that collects a process's closure.

  Reading and parsing a file, declared aliases, path expansion and SHA-256 are function values.
  The order in which pending owners are taken is left open.
*/
module RuntimeClosure {

  import opened Basics
  import Elf

  type Path = string

  const MAX_HEADERS: nat := Elf.MAX_HEADERS

  // ----- Names -----

  predicate WordChar(c: char) { 'A' <= c <= 'Z' || 'a' <= c <= 'z' || '0' <= c <= '9' || c == '_' }

  predicate Safe(s: string) {
    && 0 < |s| <= 128 && WordChar(s[0])
    && forall i :: 0 < i < |s| ==> WordChar(s[i]) || s[i] == '.' || s[i] == '+' || s[i] == '-'
  }

  /** What follows the last slash. */
  function LastPart(s: string): (r: string)
    ensures '/' !in r && |r| <= |s| && s[|s| - |r|..] == r && (|r| < |s| ==> s[|s| - |r| - 1] == '/')
  {
    if s == [] || s[|s| - 1] == '/' then [] else
      var r := LastPart(s[..|s| - 1]) + [s[|s| - 1]];
      assert s == s[..|s| - 1] + [s[|s| - 1]];
      r
  }

  function Basename(name: string): Option<string> {
    if Safe(LastPart(name)) then Some(LastPart(name)) else None
  }

  // ----- The declared inputs -----

  datatype Env = Env(
    inspect: (Path, bool) -> Option<(Bytes, Elf.Info)>,
    aliases: Path -> set<Path>,
    absolute: string -> Path,
    search: (string, Path, string) -> Option<Path>,
    sha: Bytes -> string,
    candidates: map<string, seq<Path>>,
    canonical: map<string, string>,
    variants: map<string, set<string>>)

  /** The bytes of a file taken as a library. */
  function Content(env: Env, p: Path): Option<Bytes> {
    match env.inspect(p, false) case None => None case Some(file) => Some(file.0)
  }

  function Filter(env: Env, paths: seq<Path>, wanted: Path): seq<Path> {
    if paths == [] then []
    else (if wanted in env.aliases(paths[0]) then [paths[0]] else []) + Filter(env, paths[1..], wanted)
  }

  function WithDigest(env: Env, paths: seq<Path>, digest: string): seq<Path> {
    if paths == [] then []
    else
      (if Content(env, paths[0]).Some? && env.sha(Content(env, paths[0]).value) == digest then [paths[0]] else [])
      + WithDigest(env, paths[1..], digest)
  }

  predicate AllRead(env: Env, paths: seq<Path>) { forall p :: p in paths ==> Content(env, p).Some? }

  function Digests(env: Env, paths: seq<Path>): set<string>
    requires AllRead(env, paths)
  {
    set p | p in paths :: env.sha(Content(env, p).value)
  }

  /** The first search directory that has a declared file. */
  function Searched(env: Env, paths: seq<Path>, rpath: seq<string>, owner: Path, name: string): seq<Path> {
    if rpath == [] then []
    else
      var found := match env.search(rpath[0], owner, name) case None => [] case Some(wanted) => Filter(env, paths, wanted);
      if found != [] then found else Searched(env, paths, rpath[1..], owner, name)
  }

  /** None where the name cannot be given its exact meaning; empty where any declared file will do. */
  function Preferred(env: Env, base: string, name: string, owner: Path, rpath: seq<string>, qt: bool): Option<seq<Path>>
    requires base in env.candidates
  {
    var choices := env.candidates[base];
    if qt && base in env.canonical then
      if base in env.variants && AllRead(env, choices) && Digests(env, choices) == env.variants[base]
         && WithDigest(env, choices, env.canonical[base]) != []
      then Some(WithDigest(env, choices, env.canonical[base])) else None
    else if name != "" && name[0] == '/' then
      var exact := Filter(env, choices, env.absolute(name));
      if exact == [] then None else Some(exact)
    else Some(Searched(env, choices, rpath, owner, name))
  }

  /** The declared file a name means to an owner, apart from what was selected before. */
  function Meaning(env: Env, name: string, owner: Path, rpath: seq<string>, qt: bool): Option<Path> {
    match Basename(name)
    case None => None
    case Some(base) =>
      if base !in env.candidates || env.candidates[base] == [] then None
      else
        match Preferred(env, base, name, owner, rpath, qt)
        case None => None
        case Some(preferred) =>
          var options := if preferred != [] then preferred else env.candidates[base];
          if AllRead(env, options) && forall p :: p in options ==> Content(env, p) == Content(env, options[0])
          then Some(options[0]) else None
  }

  lemma {:induction false} FilterIn(env: Env, paths: seq<Path>, wanted: Path)
    ensures forall p :: p in Filter(env, paths, wanted) <==> p in paths && wanted in env.aliases(p)
  {
    if paths != [] {
      FilterIn(env, paths[1..], wanted);
      assert paths == [paths[0]] + paths[1..];
    }
  }

  predicate HasDigest(env: Env, p: Path, digest: string) { Content(env, p).Some? && env.sha(Content(env, p).value) == digest }

  lemma {:induction false} DigestIn(env: Env, paths: seq<Path>, digest: string)
    ensures forall p :: p in WithDigest(env, paths, digest) <==> p in paths && HasDigest(env, p, digest)
  {
    if paths != [] {
      DigestIn(env, paths[1..], digest);
      assert paths == [paths[0]] + paths[1..];
    }
  }

  /** The file is what this search directory has under the name. */
  predicate Hits(env: Env, directory: string, owner: Path, name: string, p: Path) {
    var wanted := env.search(directory, owner, name);
    wanted.Some? && wanted.value in env.aliases(p)
  }

  ghost predicate SomeHit(env: Env, paths: seq<Path>, directory: string, owner: Path, name: string) {
    exists p :: p in paths && Hits(env, directory, owner, name, p)
  }

  /** The first search directory that has any of the files. */
  ghost predicate FirstHit(env: Env, paths: seq<Path>, rpath: seq<string>, owner: Path, name: string, k: int) {
    && 0 <= k < |rpath| && SomeHit(env, paths, rpath[k], owner, name)
    && forall j :: 0 <= j < k ==> !SomeHit(env, paths, rpath[j], owner, name)
  }

  lemma {:induction false} SearchedIn(env: Env, paths: seq<Path>, rpath: seq<string>, owner: Path, name: string)
    ensures forall p :: p in Searched(env, paths, rpath, owner, name) <==>
              p in paths && exists k :: FirstHit(env, paths, rpath, owner, name, k) && Hits(env, rpath[k], owner, name, p)
    ensures Searched(env, paths, rpath, owner, name) == [] <==> forall k :: 0 <= k < |rpath| ==> !SomeHit(env, paths, rpath[k], owner, name)
  {
    hide Hits, SomeHit, FirstHit, Filter;
    if rpath == [] {
      forall k ensures !FirstHit(env, paths, rpath, owner, name, k) { NoDirectory(env, paths, owner, name, k); }
    } else {
      var rest := rpath[1..];
      SearchedIn(env, paths, rest, owner, name);
      FoundAt(env, paths, rpath[0], owner, name);
      forall k ensures FirstHit(env, paths, rpath, owner, name, k) <==>
                         if SomeHit(env, paths, rpath[0], owner, name) then k == 0 else k > 0 && FirstHit(env, paths, rest, owner, name, k - 1) {
        FirstHitNext(env, paths, rpath, owner, name, k);
      }
      assert forall j :: 0 <= j < |rest| ==> rest[j] == rpath[j + 1];
      if !SomeHit(env, paths, rpath[0], owner, name) {
        forall k | FirstHit(env, paths, rest, owner, name, k) ensures FirstHit(env, paths, rpath, owner, name, k + 1) && 0 <= k < |rest| && rpath[k + 1] == rest[k] {
          FirstHitNext(env, paths, rpath, owner, name, k + 1);
        }
      }
    }
  }

  lemma NoDirectory(env: Env, paths: seq<Path>, owner: Path, name: string, k: int)
    ensures !FirstHit(env, paths, [], owner, name, k)
  {
  }

  lemma FirstHitNext(env: Env, paths: seq<Path>, rpath: seq<string>, owner: Path, name: string, k: int)
    requires rpath != []
    ensures FirstHit(env, paths, rpath, owner, name, k) <==>
              if SomeHit(env, paths, rpath[0], owner, name) then k == 0 else k > 0 && FirstHit(env, paths, rpath[1..], owner, name, k - 1)
    ensures FirstHit(env, paths, rpath[1..], owner, name, k - 1) ==> 0 <= k - 1 < |rpath[1..]|
  {
    hide SomeHit;
    assert forall j :: 0 <= j < |rpath[1..]| ==> rpath[1..][j] == rpath[j + 1];
  }

  /** What one search directory gives. */
  function Found(env: Env, paths: seq<Path>, directory: string, owner: Path, name: string): seq<Path> {
    match env.search(directory, owner, name) case None => [] case Some(wanted) => Filter(env, paths, wanted)
  }

  lemma FoundAt(env: Env, paths: seq<Path>, directory: string, owner: Path, name: string)
    ensures forall p :: p in Found(env, paths, directory, owner, name) <==> p in paths && Hits(env, directory, owner, name, p)
    ensures Found(env, paths, directory, owner, name) == [] <==> !SomeHit(env, paths, directory, owner, name)
  {
    hide Filter;
    var wanted := env.search(directory, owner, name);
    if wanted.Some? {
      FilterIn(env, paths, wanted.value);
    }
    var found := Found(env, paths, directory, owner, name);
    assert found != [] ==> found[0] in found;
  }

  /** A declared file that the name can mean to the owner. */
  ghost predicate Fits(env: Env, base: string, name: string, owner: Path, rpath: seq<string>, qt: bool, p: Path)
    requires base in env.candidates
  {
    var choices := env.candidates[base];
    && p in choices
    && (if qt && base in env.canonical then HasDigest(env, p, env.canonical[base])
        else if name != "" && name[0] == '/' then env.absolute(name) in env.aliases(p)
        else (forall k :: 0 <= k < |rpath| ==> !SomeHit(env, choices, rpath[k], owner, name))
             || exists k :: FirstHit(env, choices, rpath, owner, name, k) && Hits(env, rpath[k], owner, name, p))
  }

  /** The audited variants of a canonical library are exactly the declared ones. */
  ghost predicate Audited(env: Env, base: string, qt: bool)
    requires base in env.candidates
  {
    qt && base in env.canonical ==>
      base in env.variants && AllRead(env, env.candidates[base]) && Digests(env, env.candidates[base]) == env.variants[base]
  }

  /** Only files that fit are ever meant: exactly when there are some, all with the same bytes. */
  lemma MeaningExact(env: Env, name: string, owner: Path, rpath: seq<string>, qt: bool)
    ensures Meaning(env, name, owner, rpath, qt).Some? <==>
              && Basename(name).Some? && Basename(name).value in env.candidates && Audited(env, Basename(name).value, qt)
              && (exists p :: Fits(env, Basename(name).value, name, owner, rpath, qt, p))
              && (forall p, q :: Fits(env, Basename(name).value, name, owner, rpath, qt, p) && Fits(env, Basename(name).value, name, owner, rpath, qt, q) ==>
                    Content(env, p).Some? && Content(env, p) == Content(env, q))
    ensures Meaning(env, name, owner, rpath, qt).Some? ==> Fits(env, Basename(name).value, name, owner, rpath, qt, Meaning(env, name, owner, rpath, qt).value)
  {
    hide Filter, WithDigest, Searched, Basename, Digests, Fits, Preferred, AllRead;
    if Basename(name).Some? && Basename(name).value in env.candidates {
      var base := Basename(name).value;
      var choices := env.candidates[base];
      PreferredFits(env, base, name, owner, rpath, qt);
      var preferred := Preferred(env, base, name, owner, rpath, qt);
      if preferred.Some? {
        var options := if preferred.value != [] then preferred.value else choices;
        ReadTogether(env, options, p => Fits(env, base, name, owner, rpath, qt, p));
      }
    }
  }

  lemma ReadTogether(env: Env, options: seq<Path>, fits: Path -> bool)
    requires forall p :: p in options <==> fits(p)
    ensures options != [] <==> exists p :: fits(p)
    ensures options != [] ==> fits(options[0])
    ensures options != [] ==> (AllRead(env, options) && (forall p :: p in options ==> Content(env, p) == Content(env, options[0])) <==>
              forall p, q :: fits(p) && fits(q) ==> Content(env, p).Some? && Content(env, p) == Content(env, q))
  {
    hide Content;
    if options != [] {
      assert options[0] in options;
    }
  }

  /** The options that are compared are the files that fit. */
  lemma PreferredFits(env: Env, base: string, name: string, owner: Path, rpath: seq<string>, qt: bool)
    requires base in env.candidates
    ensures var preferred, choices := Preferred(env, base, name, owner, rpath, qt), env.candidates[base];
            && (preferred.Some? ==>
                  var options := if preferred.value != [] then preferred.value else choices;
                  && Audited(env, base, qt) && (options != [] ==> choices != [])
                  && forall p :: p in options <==> Fits(env, base, name, owner, rpath, qt, p))
            && (preferred.None? ==> !Audited(env, base, qt) || forall p :: !Fits(env, base, name, owner, rpath, qt, p))
  {
    hide Filter, WithDigest, Searched, Digests, AllRead, Hits, SomeHit, FirstHit, HasDigest;
    var choices := env.candidates[base];
    if qt && base in env.canonical {
      DigestIn(env, choices, env.canonical[base]);
      var found := WithDigest(env, choices, env.canonical[base]);
      assert found != [] ==> found[0] in found;
    } else if name != "" && name[0] == '/' {
      FilterIn(env, choices, env.absolute(name));
      var found := Filter(env, choices, env.absolute(name));
      assert found != [] ==> found[0] in found;
    } else {
      SearchedIn(env, choices, rpath, owner, name);
      SomewhereOrNowhere(env, choices, rpath, owner, name);
      var found := Searched(env, choices, rpath, owner, name);
      assert found != [] ==> found[0] in found;
    }
  }

  lemma SomewhereOrNowhere(env: Env, paths: seq<Path>, rpath: seq<string>, owner: Path, name: string)
    ensures (exists k :: FirstHit(env, paths, rpath, owner, name, k)) ==> exists k :: 0 <= k < |rpath| && SomeHit(env, paths, rpath[k], owner, name)
  {
  }

  /** Some of the files, with the earliest of them first. */
  ghost predicate Leads(all: seq<Path>, some: seq<Path>) {
    some != [] ==> exists i :: 0 <= i < |all| && all[i] == some[0] && forall j :: 0 <= j < i ==> all[j] !in some
  }

  lemma LeadsNext(all: seq<Path>, some: seq<Path>)
    requires all != [] && Leads(all[1..], some)
    ensures Leads(all, [all[0]] + some) && (all[0] !in some ==> Leads(all, some))
  {
    assert ([all[0]] + some)[0] == all[0];
    if some != [] && all[0] !in some {
      var i :| 0 <= i < |all[1..]| && all[1..][i] == some[0] && forall j :: 0 <= j < i ==> all[1..][j] !in some;
      assert all[i + 1] == some[0];
      assert forall j :: 0 < j < i + 1 ==> all[j] == all[1..][j - 1];
    }
  }

  lemma {:induction false} FilterLeads(env: Env, paths: seq<Path>, wanted: Path)
    ensures Leads(paths, Filter(env, paths, wanted))
  {
    hide Leads;
    if paths == [] {
      NothingLeads(paths);
    } else {
      FilterLeads(env, paths[1..], wanted);
      FilterIn(env, paths[1..], wanted);
      var rest := Filter(env, paths[1..], wanted);
      assert [] + rest == rest;
      LeadsNext(paths, rest);
    }
  }

  lemma {:induction false} DigestLeads(env: Env, paths: seq<Path>, digest: string)
    ensures Leads(paths, WithDigest(env, paths, digest))
  {
    hide Leads;
    if paths == [] {
      NothingLeads(paths);
    } else {
      DigestLeads(env, paths[1..], digest);
      DigestIn(env, paths[1..], digest);
      var rest := WithDigest(env, paths[1..], digest);
      assert [] + rest == rest;
      LeadsNext(paths, rest);
    }
  }

  lemma {:induction false} SearchedLeads(env: Env, paths: seq<Path>, rpath: seq<string>, owner: Path, name: string)
    ensures Leads(paths, Searched(env, paths, rpath, owner, name))
  {
    hide Leads;
    if rpath == [] {
      NothingLeads(paths);
    } else {
      SearchedLeads(env, paths, rpath[1..], owner, name);
      var wanted := env.search(rpath[0], owner, name);
      if wanted.Some? {
        FilterLeads(env, paths, wanted.value);
      }
    }
  }

  lemma NothingLeads(paths: seq<Path>)
    ensures Leads(paths, []) && Leads(paths, paths)
  {
    assert paths != [] ==> paths[0] == paths[0];
  }

  /** Of the files that fit, the one meant is the one declared first. */
  lemma MeaningFirst(env: Env, name: string, owner: Path, rpath: seq<string>, qt: bool)
    requires Meaning(env, name, owner, rpath, qt).Some?
    ensures Basename(name).Some? && Basename(name).value in env.candidates
    ensures var base := Basename(name).value; var choices := env.candidates[base];
            exists i :: 0 <= i < |choices| && choices[i] == Meaning(env, name, owner, rpath, qt).value
                        && forall j :: 0 <= j < i ==> !Fits(env, base, name, owner, rpath, qt, choices[j])
  {
    hide Filter, WithDigest, Searched, Basename, Digests, Fits, AllRead;
    var base := Basename(name).value;
    var choices := env.candidates[base];
    FilterLeads(env, choices, env.absolute(name));
    SearchedLeads(env, choices, rpath, owner, name);
    if base in env.canonical {
      DigestLeads(env, choices, env.canonical[base]);
    }
    NothingLeads(choices);
    PreferredFits(env, base, name, owner, rpath, qt);
  }

  /** Only declared files are ever meant, and they can be read. */
  lemma MeaningDeclared(env: Env, name: string, owner: Path, rpath: seq<string>, qt: bool)
    requires Meaning(env, name, owner, rpath, qt).Some?
    ensures var p := Meaning(env, name, owner, rpath, qt).value;
            && Basename(name).Some? && Basename(name).value in env.candidates
            && p in env.candidates[Basename(name).value] && Content(env, p).Some?
  {
    hide Filter, WithDigest, Searched, Basename, Digests;
    var base := Basename(name).value;
    var choices := env.candidates[base];
    FilterIn(env, choices, env.absolute(name));
    SearchedIn(env, choices, rpath, owner, name);
    if base in env.canonical {
      DigestIn(env, choices, env.canonical[base]);
    }
    var preferred := Preferred(env, base, name, owner, rpath, qt).value;
    var options := if preferred != [] then preferred else choices;
    assert options[0] in options;
  }

  // ----- The closure -----

  datatype Owner = Owner(path: Path, qt: bool, backend: bool)

  /** What an owner's file asks for, each with its meaning. */
  function Needed(env: Env, o: Owner): seq<string> {
    match env.inspect(o.path, o.backend) case None => [] case Some(file) => file.1.needed
  }

  function Means(env: Env, o: Owner, name: string): Option<Path> {
    match env.inspect(o.path, o.backend)
    case None => None
    case Some(file) => Meaning(env, name, o.path, file.1.rpath, o.qt)
  }

  predicate Fine(env: Env, o: Owner) {
    env.inspect(o.path, o.backend).Some? && forall n :: n in Needed(env, o) ==> Means(env, o, n).Some?
  }

  ghost predicate Closed(env: Env, S: set<Owner>) {
    forall o, n :: o in S && n in Needed(env, o) && Means(env, o, n).Some? ==> Owner(Means(env, o, n).value, o.qt, false) in S
  }

  ghost predicate Contains(roots: seq<Owner>, S: set<Owner>) { forall o :: o in roots ==> o in S }

  /** The least set that contains the roots and everything its members ask for. */
  ghost predicate IsLeast(env: Env, roots: seq<Owner>, S: set<Owner>) {
    && Contains(roots, S) && Closed(env, S)
    && forall R: set<Owner> :: Contains(roots, R) && Closed(env, R) ==> S <= R
  }

  type Binding = (string, Bytes)

  /** A basename is bound to these bytes by an owner. */
  ghost predicate Binds(env: Env, o: Owner, b: Binding) {
    exists n :: n in Needed(env, o) && BoundBy(env, o, n, b)
  }

  ghost predicate BoundBy(env: Env, o: Owner, n: string, b: Binding) {
    Means(env, o, n).Some? && Basename(n) == Some(b.0) && Content(env, Means(env, o, n).value) == Some(b.1)
  }

  /** Bound before the worklist starts, or by a visited owner. */
  ghost predicate Bound(env: Env, start: set<Binding>, S: set<Owner>, b: Binding) {
    b in start || exists o :: o in S && Binds(env, o, b)
  }

  ghost predicate NoConflict(env: Env, start: set<Binding>, S: set<Owner>) {
    forall b, c :: Bound(env, start, S, b) && Bound(env, start, S, c) && b.0 == c.0 ==> b == c
  }

  /** Resolution can succeed: every owner of the closure is fine and no basename means two files. */
  ghost predicate Resolvable(env: Env, start: set<Binding>, roots: seq<Owner>, S: set<Owner>) {
    IsLeast(env, roots, S) && (forall o :: o in S ==> Fine(env, o)) && NoConflict(env, start, S)
  }

  /** The audited names that the closure uses. */
  ghost predicate Uses(env: Env, S: set<Owner>, base: string) {
    base in env.canonical && exists o, n :: o in S && o.qt && n in Needed(env, o) && Basename(n) == Some(base)
  }

  // ----- The worklist -----

  /** The selection says exactly what has been bound so far. */
  ghost predicate Records(env: Env, selected: map<string, Path>, start: set<Binding>, S: set<Owner>) {
    && (forall b :: Bound(env, start, S, b) ==> b.0 in selected && Content(env, selected[b.0]) == Some(b.1))
    && (forall n :: n in selected ==> Content(env, selected[n]).Some? && Bound(env, start, S, (n, Content(env, selected[n]).value)))
  }

  lemma RecordsNoConflict(env: Env, selected: map<string, Path>, start: set<Binding>, S: set<Owner>)
    requires Records(env, selected, start, S)
    ensures NoConflict(env, start, S)
  {
  }

  /** An owner's first names have been bound. */
  ghost predicate BoundUpTo(env: Env, start: set<Binding>, S: set<Owner>, o: Owner, k: nat, b: Binding) {
    Bound(env, start, S, b) || exists i :: 0 <= i < k && i < |Needed(env, o)| && BoundBy(env, o, Needed(env, o)[i], b)
  }

  ghost predicate RecordsUpTo(env: Env, selected: map<string, Path>, start: set<Binding>, S: set<Owner>, o: Owner, k: nat) {
    && (forall b :: BoundUpTo(env, start, S, o, k, b) ==> b.0 in selected && Content(env, selected[b.0]) == Some(b.1))
    && (forall n :: n in selected ==> Content(env, selected[n]).Some? && BoundUpTo(env, start, S, o, k, (n, Content(env, selected[n]).value)))
  }

  lemma UpToNone(env: Env, selected: map<string, Path>, start: set<Binding>, S: set<Owner>, o: Owner)
    requires Records(env, selected, start, S)
    ensures RecordsUpTo(env, selected, start, S, o, 0)
  {
  }

  lemma UpToAll(env: Env, selected: map<string, Path>, start: set<Binding>, S: set<Owner>, o: Owner)
    requires RecordsUpTo(env, selected, start, S, o, |Needed(env, o)|)
    ensures Records(env, selected, start, S + {o})
  {
  }

  lemma UpToStep(env: Env, selected: map<string, Path>, start: set<Binding>, S: set<Owner>, o: Owner, k: nat, base: string, p: Path)
    requires RecordsUpTo(env, selected, start, S, o, k) && k < |Needed(env, o)|
    requires Means(env, o, Needed(env, o)[k]) == Some(p) && Basename(Needed(env, o)[k]) == Some(base) && Content(env, p).Some?
    requires base in selected ==> Content(env, selected[base]) == Content(env, p)
    ensures RecordsUpTo(env, selected[base := p], start, S, o, k + 1)
  {
    hide Bound, Means, Content, Basename, Needed;
    var names, more, added := Needed(env, o), selected[base := p], (base, Content(env, p).value);
    assert BoundBy(env, o, names[k], added);
    forall b ensures BoundUpTo(env, start, S, o, k + 1, b) <==> BoundUpTo(env, start, S, o, k, b) || b == added {
      if BoundUpTo(env, start, S, o, k + 1, b) && !Bound(env, start, S, b) {
        var i :| 0 <= i < k + 1 && BoundBy(env, o, names[i], b);
        assert i < k || b == added;
      }
    }
    forall b | BoundUpTo(env, start, S, o, k + 1, b) ensures b.0 in more && Content(env, more[b.0]) == Some(b.1) {
    }
    forall n | n in more ensures Content(env, more[n]).Some? && BoundUpTo(env, start, S, o, k + 1, (n, Content(env, more[n]).value)) {
    }
  }

  lemma UpToBound(env: Env, start: set<Binding>, S: set<Owner>, o: Owner, k: nat, b: Binding)
    requires BoundUpTo(env, start, S, o, k, b)
    ensures Bound(env, start, S + {o}, b)
  {
  }

  /** Two meanings of one basename among the bindings. */
  lemma Conflicts(env: Env, selected: map<string, Path>, start: set<Binding>, S: set<Owner>, o: Owner, k: nat, base: string, p: Path)
    requires RecordsUpTo(env, selected, start, S, o, k) && k < |Needed(env, o)|
    requires Means(env, o, Needed(env, o)[k]) == Some(p) && Basename(Needed(env, o)[k]) == Some(base) && Content(env, p).Some?
    requires base in selected && Content(env, selected[base]) != Content(env, p)
    ensures !NoConflict(env, start, S + {o})
  {
    hide Bound, Means, Content, Basename, Needed;
    var earlier, added := (base, Content(env, selected[base]).value), (base, Content(env, p).value);
    assert BoundBy(env, o, Needed(env, o)[k], added);
    assert BoundUpTo(env, start, S, o, k + 1, added);
    UpToBound(env, start, S, o, k, earlier);
    UpToBound(env, start, S, o, k + 1, added);
  }

  lemma NoneRead(env: Env, wanted: string)
    ensures AllRead(env, []) && Digests(env, []) == {} && WithDigest(env, [], wanted) == []
  {
  }

  lemma Unreadable(env: Env, paths: seq<Path>, i: nat)
    requires i < |paths| && Content(env, paths[i]).None?
    ensures !AllRead(env, paths)
  {
    assert paths[i] in paths;
  }

  lemma OneRead(env: Env, before: seq<Path>, p: Path, after: seq<Path>, wanted: string)
    requires AllRead(env, before) && Content(env, p).Some?
    ensures AllRead(env, before + [p]) && Digests(env, before + [p]) == Digests(env, before) + {env.sha(Content(env, p).value)}
    ensures WithDigest(env, [p] + after, wanted) == (if env.sha(Content(env, p).value) == wanted then [p] else []) + WithDigest(env, after, wanted)
  {
    assert ([p] + after)[1..] == after;
  }

  class Selection {
    const env: Env
    var selected: map<string, Path>
    var used: set<string>

    constructor (env: Env)
      ensures this.env == env && selected == map[] && used == {}
    {
      this.env, selected, used := env, map[], {};
    }

    /** The declared files with this alias, in order. */
    method Matching(choices: seq<Path>, wanted: Path) returns (found: seq<Path>)
      ensures found == Filter(env, choices, wanted)
    {
      found := [];
      for i := 0 to |choices|
        invariant Filter(env, choices, wanted) == found + Filter(env, choices[i..], wanted)
      {
        assert choices[i..][0] == choices[i] && choices[i..][1..] == choices[i + 1..];
        if wanted in env.aliases(choices[i]) {
          found := found + [choices[i]];
        }
      }
    }

    /** The files of the audited digest; refused where the declared variants are not the audited ones. */
    method Canonical(base: string, choices: seq<Path>) returns (r: Option<seq<Path>>)
      requires base in env.canonical
      ensures r == if base in env.variants && AllRead(env, choices) && Digests(env, choices) == env.variants[base]
                      && WithDigest(env, choices, env.canonical[base]) != []
                   then Some(WithDigest(env, choices, env.canonical[base])) else None
    {
      hide Content, WithDigest, Digests, AllRead;
      var found: seq<Path>, digests: set<string> := [], {};
      ghost var wanted := env.canonical[base];
      NoneRead(env, wanted);
      assert choices[..0] == [] && choices[0..] == choices;
      for i := 0 to |choices|
        invariant AllRead(env, choices[..i]) && digests == Digests(env, choices[..i])
        invariant WithDigest(env, choices, wanted) == found + WithDigest(env, choices[i..], wanted)
      {
        assert choices[..i + 1] == choices[..i] + [choices[i]] && choices[i..] == [choices[i]] + choices[i + 1..];
        var content := Content(env, choices[i]);
        if content.None? {
          Unreadable(env, choices, i);
          return None;
        }
        OneRead(env, choices[..i], choices[i], choices[i + 1..], wanted);
        digests := digests + {env.sha(content.value)};
        if env.sha(content.value) == env.canonical[base] {
          found := found + [choices[i]];
        }
      }
      assert choices[..|choices|] == choices && choices[|choices|..] == [] && found + [] == found;
      if base !in env.variants || digests != env.variants[base] || found == [] {
        return None;
      }
      return Some(found);
    }

    /** The search directories in turn, up to the first that has a declared file. */
    method Search(choices: seq<Path>, rpath: seq<string>, owner: Path, name: string) returns (found: seq<Path>)
      ensures found == Searched(env, choices, rpath, owner, name)
    {
      hide Filter;
      for i := 0 to |rpath|
        invariant Searched(env, choices, rpath, owner, name) == Searched(env, choices, rpath[i..], owner, name)
      {
        assert rpath[i..][0] == rpath[i] && rpath[i..][1..] == rpath[i + 1..];
        var wanted := env.search(rpath[i], owner, name);
        if wanted.None? {
          continue;
        }
        found := Matching(choices, wanted.value);
        if found != [] {
          return;
        }
      }
      found := [];
    }

    /** All of them can be read, and have the same bytes. */
    method Agree(options: seq<Path>) returns (ok: bool)
      requires options != []
      ensures ok <==> AllRead(env, options) && forall p :: p in options ==> Content(env, p) == Content(env, options[0])
    {
      var first := Content(env, options[0]);
      assert options[0] in options;
      if first.None? {
        return false;
      }
      for i := 1 to |options|
        invariant forall j :: 0 <= j < i ==> Content(env, options[j]) == first
      {
        if Content(env, options[i]) != first {
          assert options[i] in options;
          return false;
        }
      }
      return true;
    }

    /** What a name asks for: the audited library, the exact file, or what the search directories have. */
    method Prefer(base: string, name: string, owner: Path, rpath: seq<string>, qt: bool) returns (r: Option<seq<Path>>)
      requires base in env.candidates
      ensures r == Preferred(env, base, name, owner, rpath, qt)
    {
      hide Filter, WithDigest, Searched, AllRead, Digests;
      var choices := env.candidates[base];
      if qt && base in env.canonical {
        r := Canonical(base, choices);
      } else if name != "" && name[0] == '/' {
        var exact := Matching(choices, env.absolute(name));
        r := if exact == [] then None else Some(exact);
      } else {
        var found := Search(choices, rpath, owner, name);
        r := Some(found);
      }
    }

    /** The meaning of a name, refused where an earlier selection has other bytes. */
    method Resolve(name: string, owner: Path, rpath: seq<string>, qt: bool) returns (r: Option<Path>)
      modifies this
      ensures match Meaning(env, name, owner, rpath, qt)
              case None => r.None?
              case Some(p) =>
                var base := Basename(name).value;
                if base in old(selected) && Content(env, old(selected)[base]) != Content(env, p) then r.None?
                else
                  && r == Some(p) && selected == old(selected)[base := p]
                  && used == old(used) + if qt && base in env.canonical then {base} else {}
    {
      hide Preferred, Basename, Content;
      var base := Basename(name);
      if base.None? || base.value !in env.candidates || env.candidates[base.value] == [] {
        return None;
      }
      var preferred := Prefer(base.value, name, owner, rpath, qt);
      if preferred.None? {
        return None;
      }
      if qt && base.value in env.canonical {
        used := used + {base.value};
      }
      var options := if preferred.value != [] then preferred.value else env.candidates[base.value];
      var same := Agree(options);
      if !same {
        return None;
      }
      var first := options[0];
      if base.value in selected && Content(env, selected[base.value]) != Content(env, first) {
        return None;
      }
      selected := selected[base.value := first];
      return Some(first);
    }

    /** Everything an owner asks for; refused where a name has no meaning or contradicts another. */
    method Visit(o: Owner, ghost start: set<Binding>, ghost S: set<Owner>) returns (r: Option<seq<Owner>>)
      requires Records(env, selected, start, S)
      modifies this
      ensures r.None? ==> !Fine(env, o) || !NoConflict(env, start, S + {o})
      ensures r.Some? ==> Fine(env, o) && Records(env, selected, start, S + {o})
      ensures r.Some? ==> forall n :: n in Needed(env, o) ==> Owner(Means(env, o, n).value, o.qt, false) in r.value
      ensures r.Some? ==> forall x :: x in r.value ==> exists n :: n in Needed(env, o) && x == Owner(Means(env, o, n).value, o.qt, false)
      ensures r.Some? ==> forall base :: base in used <==> base in old(used) || (o.qt && base in env.canonical && exists n :: n in Needed(env, o) && Basename(n) == Some(base))
    {
      hide Records, RecordsUpTo, Meaning, Basename, NoConflict, Content;
      var file := env.inspect(o.path, o.backend);
      if file.None? {
        return None;
      }
      var names, rpath := file.value.1.needed, file.value.1.rpath;
      var asked: seq<Owner> := [];
      UpToNone(env, selected, start, S, o);
      for k := 0 to |names|
        invariant RecordsUpTo(env, selected, start, S, o, k)
        invariant |asked| == k
        invariant forall i :: 0 <= i < k ==> Means(env, o, names[i]).Some? && asked[i] == Owner(Means(env, o, names[i]).value, o.qt, false)
        invariant forall base :: base in used <==> base in old(used) || (o.qt && base in env.canonical && exists i :: 0 <= i < k && Basename(names[i]) == Some(base))
      {
        ghost var before := selected;
        var p := Resolve(names[k], o.path, rpath, o.qt);
        assert names[k] in Needed(env, o);
        if Means(env, o, names[k]).Some? {
          MeaningDeclared(env, names[k], o.path, rpath, o.qt);
        }
        if p.None? {
          if Means(env, o, names[k]).Some? {
            Conflicts(env, before, start, S, o, k, Basename(names[k]).value, Means(env, o, names[k]).value);
          }
          return None;
        }
        UpToStep(env, before, start, S, o, k, Basename(names[k]).value, p.value);
        asked := asked + [Owner(p.value, o.qt, false)];
      }
      UpToAll(env, selected, start, S, o);
      return Some(asked);
    }
  }

  function Files(env: Env): set<Path> {
    set b, p | b in env.candidates && p in env.candidates[b] :: p
  }

  /** Every owner that can ever be pending. */
  ghost function Possible(env: Env, roots: seq<Owner>): set<Owner> {
    (set o | o in roots) + (set p, q | p in Files(env) && q in {true, false} :: Owner(p, q, false))
  }

  lemma MeansPossible(env: Env, roots: seq<Owner>, o: Owner, n: string)
    requires Means(env, o, n).Some?
    ensures Owner(Means(env, o, n).value, o.qt, false) in Possible(env, roots)
  {
    MeaningDeclared(env, n, o.path, env.inspect(o.path, o.backend).value.1.rpath, o.qt);
  }

  /** Whatever is seen or pending belongs to every closed set around the roots. */
  ghost predicate Forced(env: Env, roots: seq<Owner>, seen: set<Owner>, pending: seq<Owner>) {
    forall R: set<Owner> :: Contains(roots, R) && Closed(env, R) ==> seen <= R && Contains(pending, R)
  }

  ghost predicate Progress(env: Env, roots: seq<Owner>, seen: set<Owner>, pending: seq<Owner>) {
    && (forall o :: o in seen ==> Fine(env, o))
    && (forall o, n :: o in seen && n in Needed(env, o) ==>
          Owner(Means(env, o, n).value, o.qt, false) in seen || Owner(Means(env, o, n).value, o.qt, false) in pending)
    && (forall o :: o in roots ==> o in seen || o in pending)
    && Forced(env, roots, seen, pending)
    && seen <= Possible(env, roots) && (forall o :: o in pending ==> o in Possible(env, roots))
  }

  /** The owner just visited asks for these. */
  ghost predicate Asks(env: Env, o: Owner, asked: seq<Owner>) {
    && Fine(env, o)
    && (forall n :: n in Needed(env, o) ==> Owner(Means(env, o, n).value, o.qt, false) in asked)
    && (forall x :: x in asked ==> exists n :: n in Needed(env, o) && x == Owner(Means(env, o, n).value, o.qt, false))
  }

  lemma ForcedStep(env: Env, roots: seq<Owner>, seen: set<Owner>, pending: seq<Owner>, o: Owner, rest: seq<Owner>, asked: seq<Owner>)
    requires Forced(env, roots, seen, pending) && o in pending && (forall x :: x in rest ==> x in pending) && Asks(env, o, asked)
    ensures Forced(env, roots, seen + {o}, rest + asked)
  {
  }

  lemma ProgressStep(env: Env, roots: seq<Owner>, seen: set<Owner>, pending: seq<Owner>, o: Owner, rest: seq<Owner>, asked: seq<Owner>)
    requires Progress(env, roots, seen, pending) && o in pending && Asks(env, o, asked)
    requires forall x :: x in rest ==> x in pending
    requires forall x :: x in pending ==> x == o || x in rest
    ensures Progress(env, roots, seen + {o}, rest + asked)
  {
    hide Means, Needed, Possible, Forced;
    ForcedStep(env, roots, seen, pending, o, rest, asked);
    forall x | x in asked ensures x in Possible(env, roots) {
      var n :| n in Needed(env, o) && x == Owner(Means(env, o, n).value, o.qt, false);
      MeansPossible(env, roots, o, n);
    }
  }

  lemma BoundMonotone(env: Env, start: set<Binding>, S: set<Owner>, T: set<Owner>)
    requires S <= T && NoConflict(env, start, T)
    ensures NoConflict(env, start, S)
  {
  }

  /** A visit that fails shows that no run can succeed. */
  lemma NoneResolvable(env: Env, start: set<Binding>, roots: seq<Owner>, seen: set<Owner>, pending: seq<Owner>, o: Owner)
    requires Forced(env, roots, seen, pending) && o in pending
    requires !Fine(env, o) || !NoConflict(env, start, seen + {o})
    ensures forall S :: !Resolvable(env, start, roots, S)
  {
    hide NoConflict, Fine;
    forall S | Resolvable(env, start, roots, S) ensures false {
      assert seen + {o} <= S;
      BoundMonotone(env, start, seen + {o}, S);
    }
  }

  lemma DoneIsLeast(env: Env, roots: seq<Owner>, seen: set<Owner>)
    requires Progress(env, roots, seen, [])
    ensures IsLeast(env, roots, seen)
  {
  }

  /** One after another, in any order, until nothing is pending. */
  method Close(sel: Selection, roots: seq<Owner>, ghost start: set<Binding>) returns (r: Option<set<Owner>>)
    requires Records(sel.env, sel.selected, start, {})
    modifies sel
    ensures r.Some? ==> Resolvable(sel.env, start, roots, r.value) && Records(sel.env, sel.selected, start, r.value)
    ensures r.Some? ==> forall base :: base in sel.used <==> base in old(sel.used) || Uses(sel.env, r.value, base)
    ensures r.None? ==> forall S :: !Resolvable(sel.env, start, roots, S)
  {
    hide Records, Progress, Possible, Needed, Means, Fine, NoConflict, Basename;
    var pending, seen := roots, {};
    assert Progress(sel.env, roots, seen, pending) by { ProgressStart(sel.env, roots); }
    while pending != []
      invariant Records(sel.env, sel.selected, start, seen)
      invariant Progress(sel.env, roots, seen, pending)
      invariant forall base :: base in sel.used <==> base in old(sel.used) || Uses(sel.env, seen, base)
      decreases Possible(sel.env, roots) - seen, |pending|
    {
      var k: nat := *;
      k := k % |pending|;
      var o, rest := pending[k], pending[..k] + pending[k + 1..];
      if o in seen {
        ProgressSkip(sel.env, roots, seen, pending, o, rest);
        pending := rest;
      } else {
        ghost var used := sel.used;
        assert o in Possible(sel.env, roots) by { ProgressIn(sel.env, roots, seen, pending, o); }
        var asked := sel.Visit(o, start, seen);
        if asked.None? {
          assert Forced(sel.env, roots, seen, pending) by { ProgressForced(sel.env, roots, seen, pending); }
          NoneResolvable(sel.env, start, roots, seen, pending, o);
          return None;
        }
        ProgressStep(sel.env, roots, seen, pending, o, rest, asked.value);
        seen, pending := seen + {o}, rest + asked.value;
      }
    }
    DoneIsLeast(sel.env, roots, seen);
    RecordsNoConflict(sel.env, sel.selected, start, seen);
    assert forall o :: o in seen ==> Fine(sel.env, o) by { ProgressFine(sel.env, roots, seen, pending); }
    return Some(seen);
  }

  lemma ProgressStart(env: Env, roots: seq<Owner>)
    ensures Progress(env, roots, {}, roots)
  {
  }

  lemma ProgressSkip(env: Env, roots: seq<Owner>, seen: set<Owner>, pending: seq<Owner>, o: Owner, rest: seq<Owner>)
    requires Progress(env, roots, seen, pending) && o in seen
    requires forall x :: x in rest ==> x in pending
    requires forall x :: x in pending ==> x == o || x in rest
    ensures Progress(env, roots, seen, rest)
  {
  }

  lemma ProgressForced(env: Env, roots: seq<Owner>, seen: set<Owner>, pending: seq<Owner>)
    requires Progress(env, roots, seen, pending)
    ensures Forced(env, roots, seen, pending)
  {
  }

  lemma ProgressIn(env: Env, roots: seq<Owner>, seen: set<Owner>, pending: seq<Owner>, o: Owner)
    requires Progress(env, roots, seen, pending) && o in pending
    ensures o in Possible(env, roots)
  {
  }

  lemma ProgressFine(env: Env, roots: seq<Owner>, seen: set<Owner>, pending: seq<Owner>)
    requires Progress(env, roots, seen, pending)
    ensures forall o :: o in seen ==> Fine(env, o)
  {
  }

  // ----- One process's namespace -----

  /** The declared loader of an executable, with its basename. */
  function LoaderOf(env: Env, binary: Path): Option<(string, Path)> {
    match env.inspect(binary, true)
    case None => None
    case Some(file) =>
      if file.1.interpreter.None? || file.1.interpreter.value == "" then None
      else
        match Meaning(env, file.1.interpreter.value, binary, file.1.rpath, false)
        case None => None
        case Some(p) => if Basename(file.1.interpreter.value).None? then None else Some((Basename(file.1.interpreter.value).value, p))
  }

  /** All executables of the process name the same loader, and mean the same bytes by it. */
  predicate SameLoader(env: Env, binary: Path, backends: seq<Path>) {
    LoaderOf(env, binary).Some? &&
    forall s :: s in backends ==>
      && LoaderOf(env, s).Some? && LoaderOf(env, s).value.0 == LoaderOf(env, binary).value.0
      && Content(env, LoaderOf(env, s).value.1) == Content(env, LoaderOf(env, binary).value.1)
  }

  ghost function Start(env: Env, binary: Path): set<Binding> {
    match LoaderOf(env, binary)
    case None => {}
    case Some(l) => match Content(env, l.1) case None => {} case Some(bytes) => {(l.0, bytes)}
  }

  function Roots(loader: Path, backends: seq<Path>, plugins: seq<Path>, qt: bool): seq<Owner> {
    seq(|backends|, i requires 0 <= i < |backends| => Owner(backends[i], qt, true)) + [Owner(loader, qt, false)]
    + seq(|plugins|, i requires 0 <= i < |plugins| => Owner(plugins[i], true, false))
  }

  datatype Namespace = Namespace(loaderName: string, loader: Path, seen: set<Owner>, selected: map<string, Path>)

  /** A run can end with the closure S. */
  ghost predicate Succeeds(env: Env, binary: Path, backends: seq<Path>, plugins: seq<Path>, qt: bool, witnessed: bool, S: set<Owner>) {
    && SameLoader(env, binary, backends)
    && Resolvable(env, Start(env, binary), Roots(LoaderOf(env, binary).value.1, backends, plugins, qt), S)
    && (witnessed ==> forall base :: base in env.canonical ==> Uses(env, S, base))
  }

  /** What a run gives, said without reference to the order it took. */
  ghost predicate Outcome(env: Env, binary: Path, backends: seq<Path>, plugins: seq<Path>, qt: bool, witnessed: bool, r: Option<Namespace>) {
    match r
    case None => forall S :: !Succeeds(env, binary, backends, plugins, qt, witnessed, S)
    case Some(n) =>
      && Succeeds(env, binary, backends, plugins, qt, witnessed, n.seen)
      && LoaderOf(env, binary) == Some((n.loaderName, n.loader))
      && Records(env, n.selected, Start(env, binary), n.seen)
  }

  method ResolveNamespace(env: Env, binary: Path, backends: seq<Path>, plugins: seq<Path>, qt: bool, witnessed: bool)
    returns (r: Option<Namespace>)
    ensures Outcome(env, binary, backends, plugins, qt, witnessed, r)
  {
    hide Records, Meaning, Resolvable, Uses, Basename;
    var sel := new Selection(env);
    var loader := FindLoader(sel, binary, backends);
    if loader.None? {
      return None;
    }
    var roots := Roots(loader.value.1, backends, plugins, qt);
    var seen := Close(sel, roots, Start(env, binary));
    if seen.None? {
      return None;
    }
    if witnessed && sel.used != env.canonical.Keys {
      assert exists base :: base in env.canonical && !Uses(env, seen.value, base) by {
        UnusedName(env, seen.value, sel.used);
      }
      forall S | Succeeds(env, binary, backends, plugins, qt, witnessed, S) ensures false {
        LeastUnique(env, Start(env, binary), roots, S, seen.value);
      }
      return None;
    }
    return Some(Namespace(loader.value.0, loader.value.1, seen.value, sel.selected));
  }

  lemma UnusedName(env: Env, S: set<Owner>, used: set<string>)
    requires forall base :: base in used <==> Uses(env, S, base)
    requires used != env.canonical.Keys
    ensures exists base :: base in env.canonical && !Uses(env, S, base)
  {
  }

  lemma LeastUnique(env: Env, start: set<Binding>, roots: seq<Owner>, S: set<Owner>, T: set<Owner>)
    requires Resolvable(env, start, roots, S) && Resolvable(env, start, roots, T)
    ensures S == T
  {
  }

  /** The loader of the first executable, which the others must share. */
  method FindLoader(sel: Selection, binary: Path, backends: seq<Path>) returns (r: Option<(string, Path)>)
    requires sel.selected == map[] && sel.used == {}
    modifies sel
    ensures r == if SameLoader(sel.env, binary, backends) then LoaderOf(sel.env, binary) else None
    ensures r.Some? ==> Records(sel.env, sel.selected, Start(sel.env, binary), {}) && sel.used == {}
  {
    hide Meaning, Basename, Records;
    var env := sel.env;
    var first := env.inspect(binary, true);
    if first.None? || first.value.1.interpreter.None? || first.value.1.interpreter.value == "" {
      return None;
    }
    var interpreter := first.value.1.interpreter.value;
    var loader := sel.Resolve(interpreter, binary, first.value.1.rpath, false);
    if loader.None? {
      return None;
    }
    MeaningDeclared(env, interpreter, binary, first.value.1.rpath, false);
    var name := Basename(interpreter).value;
    ghost var bytes := Content(env, loader.value).value;
    for i := 0 to |backends|
      invariant sel.selected.Keys == {name} && Content(env, sel.selected[name]) == Some(bytes) && sel.used == {}
      invariant forall s :: s in backends[..i] ==>
                  LoaderOf(env, s).Some? && LoaderOf(env, s).value.0 == name && Content(env, LoaderOf(env, s).value.1) == Some(bytes)
    {
      var s := backends[i];
      assert s in backends && backends[..i + 1] == backends[..i] + [s];
      var file := env.inspect(s, true);
      if file.None? || file.value.1.interpreter.None? || file.value.1.interpreter.value == "" || Basename(file.value.1.interpreter.value) != Some(name) {
        return None;
      }
      var p := sel.Resolve(file.value.1.interpreter.value, s, file.value.1.rpath, false);
      if p.None? {
        return None;
      }
      MeaningDeclared(env, file.value.1.interpreter.value, s, file.value.1.rpath, false);
    }
    assert backends[..|backends|] == backends;
    StartRecorded(env, sel.selected, name, bytes);
    return Some((name, loader.value));
  }

  lemma StartRecorded(env: Env, selected: map<string, Path>, name: string, bytes: Bytes)
    requires selected.Keys == {name} && Content(env, selected[name]) == Some(bytes)
    ensures Records(env, selected, {(name, bytes)}, {})
  {
  }

  /** Success, the owners visited and the bytes selected for each basename do not depend on the order. */
  lemma OrderFree(env: Env, binary: Path, backends: seq<Path>, plugins: seq<Path>, qt: bool, witnessed: bool,
                  r: Option<Namespace>, t: Option<Namespace>)
    requires Outcome(env, binary, backends, plugins, qt, witnessed, r) && Outcome(env, binary, backends, plugins, qt, witnessed, t)
    ensures r.Some? <==> t.Some?
    ensures r.Some? ==> r.value.seen == t.value.seen && r.value.selected.Keys == t.value.selected.Keys
    ensures r.Some? ==> forall n :: n in r.value.selected ==> Content(env, r.value.selected[n]) == Content(env, t.value.selected[n])
  {
    hide Uses, Content, Bound, LoaderOf, SameLoader;
    if r.Some? {
      LeastUnique(env, Start(env, binary), Roots(LoaderOf(env, binary).value.1, backends, plugins, qt), r.value.seen, t.value.seen);
    }
  }
}
