/**
  The two bounded ELF64 readers: `elf_metadata` of delivery/portable.py, and `validate_template`
  of delivery/generate_portable_launcher_template.py.  Field offsets are those of the System V
  gABI, chapters 4 and 5.  Every read of the bytes below is a slice whose bounds are proved.
*/
module Elf {

  import opened Basics

  const MAX_FILE: nat := 128 * 1024 * 1024
  const MAX_BACKEND_FILE: nat := 512 * 1024 * 1024
  const MAX_TEMPLATE: nat := 32 * 1024 * 1024
  const MAX_HEADERS: nat := 4096
  const MAX_SECTIONS: nat := 8192
  const MAX_DYNAMIC: nat := 4096
  const MAX_STRING: nat := 4096

  const PT_LOAD: nat := 1
  const PT_DYNAMIC: nat := 2
  const PT_INTERP: nat := 3
  const PT_GNU_STACK: nat := 0x6474E551

  const DT_NEEDED: int := 1
  const DT_STRTAB: int := 5
  const DT_STRSZ: int := 10
  const DT_RPATH: int := 15
  const DT_RUNPATH: int := 29

  const X86_64: nat := 62
  const AARCH64: nat := 183

  datatype Info = Info(needed: seq<string>, rpath: seq<string>, interpreter: Option<string>, machine: nat)

  datatype Segment = Segment(tag: nat, flags: nat, offset: nat, virtual: nat, filesz: nat, memsz: nat, align: nat)

  // ----- Reading fields -----

  function Word(b: Bytes, at: nat, width: nat): nat
    requires at + width <= |b|
  {
    Value(b[at..at + width])
  }

  function SegmentAt(b: Bytes, at: nat): Segment
    requires at + 56 <= |b|
  {
    Segment(Word(b, at, 4), Word(b, at + 4, 4), Word(b, at + 8, 8), Word(b, at + 16, 8),
            Word(b, at + 32, 8), Word(b, at + 40, 8), Word(b, at + 48, 8))
  }

  function Segments(b: Bytes, phoff: nat, n: nat): (segs: seq<Segment>)
    requires phoff + 56 * n <= |b|
    ensures |segs| == n && forall i :: 0 <= i < n ==> segs[i] == SegmentAt(b, phoff + 56 * i)
  {
    seq(n, i requires 0 <= i < n => SegmentAt(b, phoff + 56 * i))
  }

  predicate InFile(b: Bytes, offset: nat, size: nat) { offset + size <= |b| }

  /** The first zero byte of a range, or its end. */
  function Nul(b: Bytes, start: nat, end: nat): (i: nat)
    requires start <= end <= |b|
    ensures start <= i <= end && (i < end ==> b[i] == 0) && forall j :: start <= j < i ==> b[j] != 0
    decreases end - start
  {
    if start == end || b[start] == 0 then start else Nul(b, start + 1, end)
  }

  predicate Printable(b: Bytes) { forall i :: 0 <= i < |b| ==> 32 <= b[i] < 127 }

  function Text(b: Bytes): (s: string)
    ensures |s| == |b| && forall i :: 0 <= i < |b| ==> s[i] as int == b[i]
  {
    seq(|b|, i requires 0 <= i < |b| => b[i] as char)
  }

  function CString(table: Bytes, offset: nat): Option<string> {
    if offset >= |table| then None
    else
      var limit := if |table| < offset + MAX_STRING + 1 then |table| else offset + MAX_STRING + 1;
      var end := Nul(table, offset, limit);
      if end == limit || !Printable(table[offset..end]) then None else Some(Text(table[offset..end]))
  }

  // ----- elf_metadata -----

  predicate HeaderOk(b: Bytes, limit: int) {
    && 0 < limit <= MAX_BACKEND_FILE && 64 <= |b| <= limit
    && b[..7] == [0x7f, 0x45, 0x4c, 0x46, 2, 1, 1]
    && Word(b, 16, 2) in {2, 3} && Word(b, 18, 2) in {X86_64, AARCH64} && Word(b, 20, 4) == 1 && Word(b, 52, 2) == 64
    && 0 < Word(b, 56, 2) <= MAX_HEADERS && Word(b, 54, 2) == 56 && Word(b, 32, 8) >= 64
    && InFile(b, Word(b, 32, 8), 56 * Word(b, 56, 2))
  }

  function Interpreter(b: Bytes, s: Segment): Option<string>
    requires InFile(b, s.offset, s.filesz)
  {
    if s.filesz == 0 || s.filesz > MAX_STRING + 1 then None
    else
      var data := b[s.offset..s.offset + s.filesz];
      if data[s.filesz - 1] != 0 then None
      else
        match CString(data, 0)
        case None => None
        case Some(name) => if name == "" || |name| != |data| - 1 then None else Some(name)
  }

  predicate SegmentOk(b: Bytes, s: Segment) {
    && s.filesz <= s.memsz && InFile(b, s.offset, s.filesz)
    && (s.tag == PT_DYNAMIC ==> s.filesz > 0 && s.filesz % 16 == 0 && s.filesz / 16 <= MAX_DYNAMIC)
    && (s.tag == PT_INTERP ==> Interpreter(b, s).Some?)
  }

  predicate AtMostOne(segs: seq<Segment>, tag: nat) {
    forall i, j :: 0 <= i < j < |segs| ==> !(segs[i].tag == tag && segs[j].tag == tag)
  }

  predicate SegmentsOk(b: Bytes, segs: seq<Segment>) {
    (forall i :: 0 <= i < |segs| ==> SegmentOk(b, segs[i])) && AtMostOne(segs, PT_DYNAMIC) && AtMostOne(segs, PT_INTERP)
  }

  function Find(segs: seq<Segment>, tag: nat): Option<Segment> {
    if segs == [] then None
    else if segs[|segs| - 1].tag == tag then Some(segs[|segs| - 1])
    else Find(segs[..|segs| - 1], tag)
  }

  function Loads(segs: seq<Segment>): seq<Segment> {
    if segs == [] then []
    else
      var last := segs[|segs| - 1];
      Loads(segs[..|segs| - 1]) + if last.tag == PT_LOAD then [last] else []
  }

  function Signed(n: nat): int { if n < 0x8000_0000_0000_0000 then n else n - TWO64 }

  predicate Refused(tag: int) { tag in {0x7FFFFFFF, 0x7FFFFFFD, 0x6FFFFEFC, 0x6FFFFEFB, 0x6FFFFEFA} }

  /** The dynamic entries before the terminator; None without one, or at a refused tag. */
  function Entries(dynamic: Bytes): Option<seq<(int, nat)>> {
    if |dynamic| < 16 then None
    else
      var tag := Signed(Word(dynamic, 0, 8));
      if tag == 0 then Some([])
      else if Refused(tag) then None
      else
        match Entries(dynamic[16..])
        case None => None
        case Some(more) => Some([(tag, Word(dynamic, 8, 8))] + more)
  }

  function Tagged(entries: seq<(int, nat)>, tags: set<int>): seq<(int, nat)> {
    if entries == [] then []
    else (if entries[0].0 in tags then [entries[0]] else []) + Tagged(entries[1..], tags)
  }

  /** The address range lies in the file-backed part of the load. */
  predicate Holds(s: Segment, address: nat, size: nat) {
    s.tag == PT_LOAD && s.virtual <= address && address + size <= s.virtual + s.filesz
  }

  function Mappings(loads: seq<Segment>, address: nat, size: nat): seq<Segment> {
    if loads == [] then []
    else (if Holds(loads[0], address, size) then [loads[0]] else []) + Mappings(loads[1..], address, size)
  }

  function SplitColon(s: string): (parts: seq<string>)
    ensures parts != []
  {
    if s == [] then [[]]
    else if s[0] == ':' then [[]] + SplitColon(s[1..])
    else
      var rest := SplitColon(s[1..]);
      [[s[0]] + rest[0]] + rest[1..]
  }

  function ReadNames(table: Bytes, references: seq<(int, nat)>, info: Info): Option<Info> {
    if references == [] then Some(info)
    else
      match CString(table, references[0].1)
      case None => None
      case Some(name) =>
        if references[0].0 == DT_NEEDED then
          if name == "" then None else ReadNames(table, references[1..], info.(needed := info.needed + [name]))
        else ReadNames(table, references[1..], info.(rpath := info.rpath + SplitColon(name)))
  }

  lemma {:induction false} MappingsHold(b: Bytes, loads: seq<Segment>, address: nat, size: nat)
    requires forall s :: s in loads ==> InFile(b, s.offset, s.filesz)
    ensures forall s :: s in Mappings(loads, address, size) <==> s in loads && Holds(s, address, size)
    ensures forall s :: s in Mappings(loads, address, size) ==> Holds(s, address, size) && InFile(b, s.offset + (address - s.virtual), size)
  {
    if loads != [] {
      MappingsHold(b, loads[1..], address, size);
      assert loads == [loads[0]] + loads[1..];
    }
  }

  lemma {:induction false} LoadsAre(segs: seq<Segment>)
    ensures forall s :: s in Loads(segs) <==> s in segs && s.tag == PT_LOAD
  {
    if segs != [] {
      LoadsAre(segs[..|segs| - 1]);
      assert segs == segs[..|segs| - 1] + [segs[|segs| - 1]];
    }
  }

  function Names(b: Bytes, loads: seq<Segment>, entries: seq<(int, nat)>, info: Info): Option<Info>
    requires forall s :: s in loads ==> InFile(b, s.offset, s.filesz)
  {
    var addresses, sizes := Tagged(entries, {DT_STRTAB}), Tagged(entries, {DT_STRSZ});
    var references := Tagged(entries, {DT_NEEDED, DT_RPATH, DT_RUNPATH});
    if references == [] && addresses == [] && sizes == [] then Some(info)
    else if |addresses| != 1 || |sizes| != 1 || !(0 < sizes[0].1 <= MAX_FILE) then None
    else
      var address, size := addresses[0].1, sizes[0].1;
      var maps := Mappings(loads, address, size);
      if |maps| != 1 then None
      else
        MappingsHold(b, loads, address, size);
        var start := maps[0].offset + (address - maps[0].virtual);
        ReadNames(b[start..start + size], references, info)
  }

  function Metadata(b: Bytes, limit: int): Option<Info> {
    if !HeaderOk(b, limit) then None
    else
      var segs := Segments(b, Word(b, 32, 8), Word(b, 56, 2));
      if !SegmentsOk(b, segs) then None
      else
        LoadsAre(segs);
        FindIs(segs, PT_INTERP);
        FindIs(segs, PT_DYNAMIC);
        var interpreter := match Find(segs, PT_INTERP) case None => None case Some(s) => Interpreter(b, s);
        var info := Info([], [], interpreter, Word(b, 18, 2));
        match Find(segs, PT_DYNAMIC)
        case None => Some(info)
        case Some(d) =>
          match Entries(b[d.offset..d.offset + d.filesz])
          case None => None
          case Some(entries) => Names(b, Loads(segs), entries, info)
  }

  lemma {:induction false} FindIs(segs: seq<Segment>, tag: nat)
    ensures Find(segs, tag).Some? ==> Find(segs, tag).value in segs && Find(segs, tag).value.tag == tag
    ensures Find(segs, tag).None? ==> forall s :: s in segs ==> s.tag != tag
  {
    if segs != [] {
      FindIs(segs[..|segs| - 1], tag);
      assert segs == segs[..|segs| - 1] + [segs[|segs| - 1]];
    }
  }

  // ----- The loops -----

  lemma OkPrefix(b: Bytes, segs: seq<Segment>, n: nat)
    requires n <= |segs| && SegmentsOk(b, segs)
    ensures SegmentsOk(b, segs[..n])
  {
  }

  lemma OkMore(b: Bytes, segs: seq<Segment>, s: Segment)
    requires SegmentsOk(b, segs)
    ensures SegmentsOk(b, segs + [s]) <==>
              && SegmentOk(b, s) && (s.tag == PT_DYNAMIC ==> Find(segs, PT_DYNAMIC).None?)
              && (s.tag == PT_INTERP ==> Find(segs, PT_INTERP).None?)
  {
    hide SegmentOk;
    var more := segs + [s];
    assert more[|segs|] == s && forall i :: 0 <= i < |segs| ==> more[i] == segs[i];
    FindIs(segs, PT_DYNAMIC);
    FindIs(segs, PT_INTERP);
    if s.tag == PT_DYNAMIC && Find(segs, PT_DYNAMIC).Some? {
      var i :| 0 <= i < |segs| && segs[i] == Find(segs, PT_DYNAMIC).value;
      assert more[i].tag == PT_DYNAMIC;
    }
    if s.tag == PT_INTERP && Find(segs, PT_INTERP).Some? {
      var i :| 0 <= i < |segs| && segs[i] == Find(segs, PT_INTERP).value;
      assert more[i].tag == PT_INTERP;
    }
  }

  lemma FindMore(segs: seq<Segment>, s: Segment, tag: nat)
    ensures Find(segs + [s], tag) == (if s.tag == tag then Some(s) else Find(segs, tag))
    ensures Loads(segs + [s]) == Loads(segs) + if s.tag == PT_LOAD then [s] else []
  {
  }

  datatype Scan = Scan(loads: seq<Segment>, dynamic: Option<Segment>, interpreter: Option<string>)

  ghost function Scanned(b: Bytes, segs: seq<Segment>): Scan
    requires SegmentsOk(b, segs)
  {
    FindIs(segs, PT_INTERP);
    Scan(Loads(segs), Find(segs, PT_DYNAMIC),
         match Find(segs, PT_INTERP) case None => None case Some(s) => Interpreter(b, s))
  }

  lemma InterpreterFound(b: Bytes, segs: seq<Segment>)
    requires SegmentsOk(b, segs)
    ensures Scanned(b, segs).interpreter.Some? <==> Find(segs, PT_INTERP).Some?
  {
  }

  method ScanSegments(b: Bytes, phoff: nat, phnum: nat) returns (r: Option<Scan>)
    requires phoff + 56 * phnum <= |b|
    ensures var segs := Segments(b, phoff, phnum);
            r == if SegmentsOk(b, segs) then Some(Scanned(b, segs)) else None
  {
    hide Word, Find, Loads, SegmentsOk, Interpreter;
    ghost var segs := Segments(b, phoff, phnum);
    var scan := Scan([], None, None);
    assert SegmentsOk(b, segs[..0]) && Scanned(b, segs[..0]) == scan by { ScanNone(b, segs[..0]); }
    for index := 0 to phnum
      invariant SegmentsOk(b, segs[..index]) && scan == Scanned(b, segs[..index])
    {
      var s := SegmentAt(b, phoff + index * 56);
      assert s == segs[index] && segs[..index + 1] == segs[..index] + [s];
      OkMore(b, segs[..index], s);
      InterpreterFound(b, segs[..index]);
      if SegmentsOk(b, segs) { OkPrefix(b, segs, index + 1); }
      if s.filesz > s.memsz || !InFile(b, s.offset, s.filesz) {
        return None;
      }
      if s.tag == PT_LOAD {
        scan := scan.(loads := scan.loads + [s]);
      } else if s.tag == PT_DYNAMIC {
        if scan.dynamic.Some? || s.filesz == 0 || s.filesz % 16 != 0 || s.filesz / 16 > MAX_DYNAMIC {
          return None;
        }
        scan := scan.(dynamic := Some(s));
      } else if s.tag == PT_INTERP {
        var name := Interpreter(b, s);
        if scan.interpreter.Some? || name.None? {
          return None;
        }
        scan := scan.(interpreter := name);
      }
      FindMore(segs[..index], s, PT_DYNAMIC);
      FindMore(segs[..index], s, PT_INTERP);
    }
    assert segs[..phnum] == segs;
    return Some(scan);
  }

  lemma ScanNone(b: Bytes, segs: seq<Segment>)
    requires segs == []
    ensures SegmentsOk(b, segs) && Scanned(b, segs) == Scan([], None, None)
  {
  }

  ghost function After(done: seq<(int, nat)>, more: Option<seq<(int, nat)>>): Option<seq<(int, nat)>> {
    if more.None? then None else Some(done + more.value)
  }

  lemma AfterMore(done: seq<(int, nat)>, entry: (int, nat), more: Option<seq<(int, nat)>>)
    ensures After(done, After([entry], more)) == After(done + [entry], more) && After(done, Some([])) == Some(done)
    ensures After([], more) == more
  {
    assert done + [] == done;
    if more.Some? {
      assert done + ([entry] + more.value) == done + [entry] + more.value;
      assert [] + more.value == more.value;
    }
  }

  method ReadEntries(dynamic: Bytes) returns (r: Option<seq<(int, nat)>>)
    requires |dynamic| % 16 == 0
    ensures r == Entries(dynamic)
  {
    hide Word;
    var entries: seq<(int, nat)> := [];
    var offset := 0;
    AfterMore([], (0, 0), Entries(dynamic));
    while offset < |dynamic|
      invariant offset <= |dynamic| && offset % 16 == 0
      invariant Entries(dynamic) == After(entries, Entries(dynamic[offset..]))
    {
      var tag, value := Signed(Word(dynamic, offset, 8)), Word(dynamic, offset + 8, 8);
      WordFrom(dynamic, offset);
      if tag == 0 {
        AfterMore(entries, (0, 0), None);
        return Some(entries);
      }
      if Refused(tag) {
        return None;
      }
      AfterMore(entries, (tag, value), Entries(dynamic[offset + 16..]));
      entries, offset := entries + [(tag, value)], offset + 16;
    }
    return None;
  }

  lemma WordFrom(b: Bytes, at: nat)
    requires at + 16 <= |b|
    ensures Word(b[at..], 0, 8) == Word(b, at, 8) && Word(b[at..], 8, 8) == Word(b, at + 8, 8)
    ensures b[at..][16..] == b[at + 16..]
  {
    assert b[at..][0..8] == b[at..at + 8] && b[at..][8..16] == b[at + 8..at + 16];
  }

  method ReadReferences(table: Bytes, references: seq<(int, nat)>, start: Info) returns (r: Option<Info>)
    ensures r == ReadNames(table, references, start)
  {
    hide CString, SplitColon;
    var info := start;
    for i := 0 to |references|
      invariant ReadNames(table, references, start) == ReadNames(table, references[i..], info)
    {
      assert references[i..][0] == references[i] && references[i..][1..] == references[i + 1..];
      var name := CString(table, references[i].1);
      if name.None? {
        return None;
      }
      if references[i].0 == DT_NEEDED {
        if name.value == "" {
          return None;
        }
        info := info.(needed := info.needed + [name.value]);
      } else {
        info := info.(rpath := info.rpath + SplitColon(name.value));
      }
    }
    return Some(info);
  }

  method ElfMetadata(payload: Bytes, limit: int) returns (r: Option<Info>)
    ensures r == Metadata(payload, limit)
  {
    hide Entries, Loads, Find, Tagged, Mappings, ReadNames, Word, SegmentOk, Interpreter;
    if !HeaderOk(payload, limit) {
      return None;
    }
    var phoff, phnum := Word(payload, 32, 8), Word(payload, 56, 2);
    var scan := ScanSegments(payload, phoff, phnum);
    if scan.None? {
      return None;
    }
    ghost var segs := Segments(payload, phoff, phnum);
    FindIs(segs, PT_DYNAMIC);
    LoadsInFile(payload, segs);
    var result := Info([], [], scan.value.interpreter, Word(payload, 18, 2));
    if scan.value.dynamic.None? {
      return Some(result);
    }
    var d := scan.value.dynamic.value;
    assert SegmentOk(payload, d);
    assert InFile(payload, d.offset, d.filesz) && d.filesz % 16 == 0 by { DynamicOk(payload, d); }
    var entries := ReadEntries(payload[d.offset..d.offset + d.filesz]);
    if entries.None? {
      return None;
    }
    r := ReadTable(payload, scan.value.loads, entries.value, result);
  }

  lemma LoadsInFile(b: Bytes, segs: seq<Segment>)
    requires SegmentsOk(b, segs)
    ensures forall s :: s in Loads(segs) ==> InFile(b, s.offset, s.filesz)
  {
  }

  lemma DynamicOk(b: Bytes, s: Segment)
    requires SegmentOk(b, s) && s.tag == PT_DYNAMIC
    ensures InFile(b, s.offset, s.filesz) && s.filesz % 16 == 0
  {
  }

  method ReadTable(b: Bytes, loads: seq<Segment>, entries: seq<(int, nat)>, info: Info) returns (r: Option<Info>)
    requires forall s :: s in loads ==> InFile(b, s.offset, s.filesz)
    ensures r == Names(b, loads, entries, info)
  {
    hide Tagged, Mappings, ReadNames;
    var addresses, sizes := Tagged(entries, {DT_STRTAB}), Tagged(entries, {DT_STRSZ});
    var references := Tagged(entries, {DT_NEEDED, DT_RPATH, DT_RUNPATH});
    if references == [] && addresses == [] && sizes == [] {
      return Some(info);
    }
    if |addresses| != 1 || |sizes| != 1 || !(0 < sizes[0].1 <= MAX_FILE) {
      return None;
    }
    var address, size := addresses[0].1, sizes[0].1;
    var maps := Mappings(loads, address, size);
    if |maps| != 1 {
      return None;
    }
    MappingsHold(b, loads, address, size);
    assert maps[0] in maps;
    var start := maps[0].offset + (address - maps[0].virtual);
    r := ReadReferences(b[start..start + size], references, info);
  }

  // ----- What an accepted name is -----

  /** Segment i, and no other, has the range in its file-backed part. */
  ghost predicate OnlyHolder(segs: seq<Segment>, i: int, address: nat, size: nat) {
    && 0 <= i < |segs| && Holds(segs[i], address, size)
    && forall j :: 0 <= j < |segs| && Holds(segs[j], address, size) ==> j == i
  }

  /** The bytes at this place are the name and a zero; the name itself has no zero. */
  ghost predicate StringAt(b: Bytes, at: nat, name: string) {
    && at + |name| < |b| && b[at + |name|] == 0
    && forall k :: 0 <= k < |name| ==> b[at + k] == name[k] as int && 32 <= b[at + k] < 127
  }

  /** A NUL-terminated string inside a table that lies in the file-backed part of exactly one load. */
  ghost predicate TableString(b: Bytes, segs: seq<Segment>, i: int, address: nat, size: nat, offset: nat, name: string) {
    && OnlyHolder(segs, i, address, size) && offset + |name| < size
    && StringAt(b, segs[i].offset + (address - segs[i].virtual) + offset, name)
  }

  lemma {:induction false} MappingsAppend(loads: seq<Segment>, s: Segment, address: nat, size: nat)
    ensures Mappings(loads + [s], address, size) == Mappings(loads, address, size) + if Holds(s, address, size) then [s] else []
  {
    if loads != [] {
      MappingsAppend(loads[1..], s, address, size);
      assert (loads + [s])[1..] == loads[1..] + [s];
    } else {
      assert loads + [s] == [s] && [s][1..] == [];
    }
  }

  /** What a list of the holders says. */
  ghost predicate HoldersIn(segs: seq<Segment>, maps: seq<Segment>, address: nat, size: nat) {
    && (maps == [] ==> forall i :: 0 <= i < |segs| ==> !Holds(segs[i], address, size))
    && (|maps| == 1 ==> exists i :: OnlyHolder(segs, i, address, size) && segs[i] == maps[0])
  }

  lemma HoldersMore(segs: seq<Segment>, maps: seq<Segment>, s: Segment, address: nat, size: nat)
    requires HoldersIn(segs, maps, address, size)
    ensures HoldersIn(segs + [s], maps + if Holds(s, address, size) then [s] else [], address, size)
  {
    hide Holds;
    var all := maps + if Holds(s, address, size) then [s] else [];
    if |all| == 1 {
      if Holds(s, address, size) {
        assert maps == [] && all[0] == s && (segs + [s])[|segs|] == s;
        assert OnlyHolder(segs + [s], |segs|, address, size);
      } else {
        assert all == maps;
        var i :| OnlyHolder(segs, i, address, size) && segs[i] == maps[0];
        assert OnlyHolder(segs + [s], i, address, size) && (segs + [s])[i] == maps[0];
      }
    }
  }

  lemma {:induction false} Holders(segs: seq<Segment>, address: nat, size: nat)
    ensures HoldersIn(segs, Mappings(Loads(segs), address, size), address, size)
  {
    if segs != [] {
      hide HoldersIn, Mappings;
      var init, last := segs[..|segs| - 1], segs[|segs| - 1];
      Holders(init, address, size);
      HoldersMore(init, Mappings(Loads(init), address, size), last, address, size);
      assert init + [last] == segs;
      if last.tag == PT_LOAD {
        MappingsAppend(Loads(init), last, address, size);
      } else {
        assert Loads(segs) == Loads(init) + [] == Loads(init);
        assert Mappings(Loads(init), address, size) + [] == Mappings(Loads(init), address, size);
      }
    }
  }

  lemma Holder(segs: seq<Segment>, address: nat, size: nat) returns (i: nat)
    requires |Mappings(Loads(segs), address, size)| == 1
    ensures i < |segs| && OnlyHolder(segs, i, address, size) && segs[i] == Mappings(Loads(segs), address, size)[0]
    ensures segs[i].virtual <= address && address + size <= segs[i].virtual + segs[i].filesz
  {
    Holders(segs, address, size);
    i :| 0 <= i < |segs| && OnlyHolder(segs, i, address, size) && segs[i] == Mappings(Loads(segs), address, size)[0];
  }

  lemma CStringAt(b: Bytes, start: nat, size: nat, offset: nat)
    requires start + size <= |b| && CString(b[start..start + size], offset).Some?
    ensures var name := CString(b[start..start + size], offset).value;
            offset + |name| < size && StringAt(b, start + offset, name)
  {
    CStringIs(b[start..start + size], offset);
    StringShift(b, start, size, offset, CString(b[start..start + size], offset).value);
  }

  lemma StringShift(b: Bytes, start: nat, size: nat, offset: nat, name: string)
    requires start + size <= |b| && offset + |name| < size && StringAt(b[start..start + size], offset, name)
    ensures StringAt(b, start + offset, name)
  {
    var table, at := b[start..start + size], start + offset;
    forall k | 0 <= k < |name| ensures b[at + k] == name[k] as int && 32 <= b[at + k] < 127 {
      SliceAt(b, start, size, offset + k);
    }
    SliceAt(b, start, size, offset + |name|);
  }

  lemma SliceAt(b: Bytes, start: nat, size: nat, k: nat)
    requires start + size <= |b| && k < size
    ensures b[start..start + size][k] == b[start + k]
  {
  }

  lemma CStringIs(table: Bytes, offset: nat)
    requires CString(table, offset).Some?
    ensures var name := CString(table, offset).value; offset + |name| < |table| && StringAt(table, offset, name)
  {
    var name := CString(table, offset).value;
    var part := table[offset..offset + |name|];
    forall k | 0 <= k < |name| ensures table[offset + k] == name[k] as int && 32 <= name[k] as int < 127 {
      assert part[k] == table[offset + k];
    }
  }

  // What a list of references gives, in order: the strings at their offsets.

  ghost predicate Readable(table: Bytes, references: seq<(int, nat)>) {
    forall k :: 0 <= k < |references| ==> CString(table, references[k].1).Some?
  }

  ghost function Strings(table: Bytes, references: seq<(int, nat)>): (texts: seq<string>)
    requires Readable(table, references)
    ensures |texts| == |references| && forall k :: 0 <= k < |texts| ==> CString(table, references[k].1) == Some(texts[k])
  {
    seq(|references|, k requires 0 <= k < |references| => CString(table, references[k].1).value)
  }

  /** The search paths of several path lists, in order. */
  ghost function SplitAll(texts: seq<string>): seq<string> {
    if texts == [] then [] else SplitColon(texts[0]) + SplitAll(texts[1..])
  }

  function JoinColon(parts: seq<string>): string
    requires parts != []
  {
    if |parts| == 1 then parts[0] else parts[0] + ":" + JoinColon(parts[1..])
  }

  lemma {:induction false} NoColon(s: string)
    ensures forall p :: p in SplitColon(s) ==> ':' !in p
  {
    if s != [] {
      NoColon(s[1..]);
      var rest := SplitColon(s[1..]);
      assert rest[0] in rest && forall p :: p in rest[1..] ==> p in rest;
    }
  }

  /** The parts of a path list are what stands between its colons. */
  lemma SplitJoins(s: string)
    ensures JoinColon(SplitColon(s)) == s && forall p :: p in SplitColon(s) ==> ':' !in p
  {
    hide SplitColon, JoinColon;
    JoinSplit(s);
    NoColon(s);
  }

  lemma {:induction false} JoinSplit(s: string)
    ensures JoinColon(SplitColon(s)) == s
  {
    if s != [] {
      hide JoinColon;
      JoinSplit(s[1..]);
      var rest := SplitColon(s[1..]);
      if s[0] == ':' {
        JoinOne([], rest);
        assert [] + ":" == [':'];
        assert [':'] + s[1..] == s;
      } else {
        JoinFirst(s[0], rest);
        assert [s[0]] + s[1..] == s;
      }
    } else {
      JoinSingle([]);
    }
  }

  lemma JoinSingle(s: string)
    ensures JoinColon([s]) == s
  {
  }

  lemma JoinFirst(c: char, rest: seq<string>)
    requires rest != []
    ensures JoinColon([[c] + rest[0]] + rest[1..]) == [c] + JoinColon(rest)
  {
    hide JoinColon;
    if rest[1..] == [] {
      JoinSingle([c] + rest[0]);
      JoinSingle(rest[0]);
      assert rest == [rest[0]] && [[c] + rest[0]] + rest[1..] == [[c] + rest[0]];
    } else {
      JoinOne([c] + rest[0], rest[1..]);
      JoinOne(rest[0], rest[1..]);
      assert rest == [rest[0]] + rest[1..];
      Regrouped(c, rest[0], JoinColon(rest[1..]));
    }
  }

  lemma Regrouped(c: char, s: string, tail: string)
    ensures ([c] + s) + ":" + tail == [c] + (s + ":" + tail)
  {
  }

  lemma JoinOne(first: string, rest: seq<string>)
    requires rest != []
    ensures JoinColon([first] + rest) == first + ":" + JoinColon(rest)
  {
    assert ([first] + rest)[1..] == rest;
  }

  lemma {:induction false} TaggedTwice(entries: seq<(int, nat)>, a: set<int>, b: set<int>)
    requires b <= a
    ensures Tagged(Tagged(entries, a), b) == Tagged(entries, b)
  {
    if entries != [] {
      TaggedTwice(entries[1..], a, b);
      var rest := Tagged(entries[1..], a);
      if entries[0].0 in a {
        assert Tagged(entries, a) == [entries[0]] + rest && ([entries[0]] + rest)[1..] == rest;
      } else {
        assert Tagged(entries, a) == rest;
      }
    }
  }

  lemma {:induction false} TaggedHave(entries: seq<(int, nat)>, tags: set<int>)
    ensures forall k :: 0 <= k < |Tagged(entries, tags)| ==> Tagged(entries, tags)[k].0 in tags
  {
    if entries != [] {
      TaggedHave(entries[1..], tags);
    }
  }

  /** A reading appended, in order, the strings of the dependency references and the parts of the path lists. */
  ghost predicate Reads(table: Bytes, references: seq<(int, nat)>, info: Info, r: Info) {
    var needed, paths := Tagged(references, {DT_NEEDED}), Tagged(references, {DT_RPATH, DT_RUNPATH});
    && Readable(table, needed) && Readable(table, paths) && "" !in Strings(table, needed)
    && r.interpreter == info.interpreter && r.machine == info.machine
    && r.needed == info.needed + Strings(table, needed) && r.rpath == info.rpath + SplitAll(Strings(table, paths))
  }

  lemma {:induction false} NamesRead(table: Bytes, references: seq<(int, nat)>, info: Info)
    requires ReadNames(table, references, info).Some?
    requires forall k :: 0 <= k < |references| ==> references[k].0 in {DT_NEEDED, DT_RPATH, DT_RUNPATH}
    ensures Reads(table, references, info, ReadNames(table, references, info).value)
  {
    hide CString, SplitColon, Reads;
    if references == [] {
      NothingRead(table, info);
    } else {
      var name := CString(table, references[0].1).value;
      var more := if references[0].0 == DT_NEEDED then info.(needed := info.needed + [name])
                  else info.(rpath := info.rpath + SplitColon(name));
      NamesRead(table, references[1..], more);
      if references[0].0 == DT_NEEDED {
        ReadsNeeded(table, references, info, ReadNames(table, references, info).value);
      } else {
        ReadsPath(table, references, info, ReadNames(table, references, info).value);
      }
    }
  }

  lemma ReadsNeeded(table: Bytes, references: seq<(int, nat)>, info: Info, r: Info)
    requires references != [] && references[0].0 == DT_NEEDED && CString(table, references[0].1).Some?
    requires CString(table, references[0].1).value != ""
    requires Reads(table, references[1..], info.(needed := info.needed + [CString(table, references[0].1).value]), r)
    ensures Reads(table, references, info, r)
  {
    hide CString, SplitColon, Strings, Readable, SplitAll, Tagged;
    TaggedFirst(references, {DT_NEEDED});
    TaggedFirst(references, {DT_RPATH, DT_RUNPATH});
    StringsMore(table, references[0], Tagged(references[1..], {DT_NEEDED}));
  }

  lemma ReadsPath(table: Bytes, references: seq<(int, nat)>, info: Info, r: Info)
    requires references != [] && references[0].0 in {DT_RPATH, DT_RUNPATH} && CString(table, references[0].1).Some?
    requires Reads(table, references[1..], info.(rpath := info.rpath + SplitColon(CString(table, references[0].1).value)), r)
    ensures Reads(table, references, info, r)
  {
    hide CString, SplitColon, Strings, Readable, SplitAll, Tagged;
    TaggedFirst(references, {DT_NEEDED});
    TaggedFirst(references, {DT_RPATH, DT_RUNPATH});
    StringsMore(table, references[0], Tagged(references[1..], {DT_RPATH, DT_RUNPATH}));
  }

  lemma TaggedFirst(entries: seq<(int, nat)>, tags: set<int>)
    requires entries != []
    ensures Tagged(entries, tags) == if entries[0].0 in tags then [entries[0]] + Tagged(entries[1..], tags) else Tagged(entries[1..], tags)
  {
  }

  lemma NothingRead(table: Bytes, info: Info)
    ensures Reads(table, [], info, info)
  {
  }

  lemma StringsMore(table: Bytes, reference: (int, nat), references: seq<(int, nat)>)
    requires CString(table, reference.1).Some? && Readable(table, references)
    ensures Readable(table, [reference] + references)
    ensures var name, texts := CString(table, reference.1).value, Strings(table, references);
            && Strings(table, [reference] + references) == [name] + texts
            && SplitAll([name] + texts) == SplitColon(name) + SplitAll(texts)
  {
    hide CString, SplitColon;
    var texts := Strings(table, references);
    assert ([CString(table, reference.1).value] + texts)[1..] == texts;
  }

  /** Every reference of these is the string at its offset in this table, count and order included. */
  ghost predicate TableStrings(b: Bytes, segs: seq<Segment>, i: int, address: nat, size: nat, references: seq<(int, nat)>, texts: seq<string>) {
    && |texts| == |references|
    && forall k :: 0 <= k < |texts| ==> TableString(b, segs, i, address, size, references[k].1, texts[k])
  }

  lemma StringsAt(b: Bytes, segs: seq<Segment>, i: int, address: nat, size: nat, references: seq<(int, nat)>)
    requires OnlyHolder(segs, i, address, size) && InFile(b, segs[i].offset, segs[i].filesz)
    requires var start := segs[i].offset + (address - segs[i].virtual); Readable(b[start..start + size], references)
    ensures var start := segs[i].offset + (address - segs[i].virtual);
            TableStrings(b, segs, i, address, size, references, Strings(b[start..start + size], references))
  {
    hide CString;
    var start := segs[i].offset + (address - segs[i].virtual);
    forall k | 0 <= k < |references|
      ensures TableString(b, segs, i, address, size, references[k].1, Strings(b[start..start + size], references)[k])
    {
      CStringAt(b, start, size, references[k].1);
    }
  }

  /**
    The names that these dynamic entries refer to: the table is the range given by the only DT_STRTAB
    and the only DT_STRSZ entry; the k-th dependency is the string at the offset of the k-th DT_NEEDED
    entry; the search paths are the parts of the strings of the path entries, in order.
  */
  ghost predicate TableOf(b: Bytes, segs: seq<Segment>, entries: seq<(int, nat)>, i: int, address: nat, size: nat,
                          needed: seq<string>, texts: seq<string>) {
    && Tagged(entries, {DT_STRTAB}) == [(DT_STRTAB, address)] && Tagged(entries, {DT_STRSZ}) == [(DT_STRSZ, size)]
    && 0 < size <= MAX_FILE && OnlyHolder(segs, i, address, size)
    && TableStrings(b, segs, i, address, size, Tagged(entries, {DT_NEEDED}), needed) && "" !in needed
    && TableStrings(b, segs, i, address, size, Tagged(entries, {DT_RPATH, DT_RUNPATH}), texts)
  }

  ghost predicate NamesOf(b: Bytes, segs: seq<Segment>, entries: seq<(int, nat)>, info: Info) {
    if Tagged(entries, {DT_NEEDED, DT_RPATH, DT_RUNPATH, DT_STRTAB, DT_STRSZ}) == [] then info.needed == [] && info.rpath == []
    else exists i, address, size, texts ::
           TableOf(b, segs, entries, i, address, size, info.needed, texts) && info.rpath == SplitAll(texts)
  }

  lemma {:induction false} NoneTagged(entries: seq<(int, nat)>, tags: set<int>)
    ensures Tagged(entries, tags) == [] <==> forall e :: e in entries ==> e.0 !in tags
  {
    if entries != [] {
      NoneTagged(entries[1..], tags);
      assert entries == [entries[0]] + entries[1..];
    }
  }

  /** No entry about names: none of any of the five tags. */
  lemma NoNames(entries: seq<(int, nat)>)
    ensures Tagged(entries, {DT_NEEDED, DT_RPATH, DT_RUNPATH, DT_STRTAB, DT_STRSZ}) == [] <==>
              Tagged(entries, {DT_STRTAB}) == [] && Tagged(entries, {DT_STRSZ}) == [] && Tagged(entries, {DT_NEEDED, DT_RPATH, DT_RUNPATH}) == []
  {
    hide Tagged;
    NoneTagged(entries, {DT_NEEDED, DT_RPATH, DT_RUNPATH, DT_STRTAB, DT_STRSZ});
    NoneTagged(entries, {DT_STRTAB});
    NoneTagged(entries, {DT_STRSZ});
    NoneTagged(entries, {DT_NEEDED, DT_RPATH, DT_RUNPATH});
  }

  lemma OneTagged(entries: seq<(int, nat)>, tag: int)
    requires |Tagged(entries, {tag})| == 1
    ensures Tagged(entries, {tag}) == [(tag, Tagged(entries, {tag})[0].1)]
  {
    TaggedHave(entries, {tag});
  }

  lemma {:induction false} TableNames(b: Bytes, segs: seq<Segment>, entries: seq<(int, nat)>, info: Info)
    requires forall s :: s in segs ==> InFile(b, s.offset, s.filesz)
    requires forall s :: s in Loads(segs) ==> InFile(b, s.offset, s.filesz)
    requires info.needed == [] && info.rpath == [] && Names(b, Loads(segs), entries, info).Some?
    ensures var r := Names(b, Loads(segs), entries, info).value;
            r.interpreter == info.interpreter && r.machine == info.machine && NamesOf(b, segs, entries, r)
  {
    hide CString, SplitColon, Tagged, Mappings, Loads, ReadNames, OnlyHolder, Holds, SplitAll, TableStrings, Readable;
    var r := Names(b, Loads(segs), entries, info).value;
    var all := {DT_NEEDED, DT_RPATH, DT_RUNPATH};
    var addresses, sizes, references := Tagged(entries, {DT_STRTAB}), Tagged(entries, {DT_STRSZ}), Tagged(entries, all);
    NoNames(entries);
    if references != [] || addresses != [] || sizes != [] {
      var address, size := addresses[0].1, sizes[0].1;
      OneTagged(entries, DT_STRTAB);
      OneTagged(entries, DT_STRSZ);
      MappingsHold(b, Loads(segs), address, size);
      var i := Holder(segs, address, size);
      var start := segs[i].offset + (address - segs[i].virtual);
      var table := b[start..start + size];
      TaggedHave(entries, all);
      NamesRead(table, references, info);
      TaggedTwice(entries, all, {DT_NEEDED});
      TaggedTwice(entries, all, {DT_RPATH, DT_RUNPATH});
      var needed, paths := Tagged(entries, {DT_NEEDED}), Tagged(entries, {DT_RPATH, DT_RUNPATH});
      StringsAt(b, segs, i, address, size, needed);
      StringsAt(b, segs, i, address, size, paths);
      var texts := Strings(table, paths);
      assert [] + Strings(table, needed) == Strings(table, needed) && [] + SplitAll(texts) == SplitAll(texts);
      assert TableOf(b, segs, entries, i, address, size, r.needed, texts);
    }
  }

  /** These are the entries of the dynamic segment: its words in order, up to the first zero tag. */
  ghost predicate DynamicEntries(b: Bytes, d: Segment, entries: seq<(int, nat)>) {
    && InFile(b, d.offset, d.filesz) && 16 * (|entries| + 1) <= d.filesz
    && (forall k :: 0 <= k < |entries| ==>
          entries[k] == (Signed(Word(b, d.offset + 16 * k, 8)), Word(b, d.offset + 16 * k + 8, 8)) && entries[k].0 != 0)
    && Signed(Word(b, d.offset + 16 * |entries|, 8)) == 0
  }

  lemma SliceWord(b: Bytes, offset: nat, size: nat, at: nat)
    requires offset + size <= |b| && at + 8 <= size
    ensures Word(b[offset..offset + size], at, 8) == Word(b, offset + at, 8)
  {
    var slice, from := b[offset..offset + size], offset + at;
    var left, right := slice[at..at + 8], b[from..from + 8];
    forall k | 0 <= k < 8 ensures left[k] == right[k] {
      assert slice[at + k] == b[offset + (at + k)];
    }
    assert left == right;
  }

  lemma {:induction false} EntriesAre(b: Bytes, d: Segment)
    requires InFile(b, d.offset, d.filesz) && Entries(b[d.offset..d.offset + d.filesz]).Some?
    ensures DynamicEntries(b, d, Entries(b[d.offset..d.offset + d.filesz]).value)
    decreases d.filesz
  {
    hide Refused, Signed, Word;
    var dynamic := b[d.offset..d.offset + d.filesz];
    var entries := Entries(dynamic).value;
    SliceWord(b, d.offset, d.filesz, 0);
    SliceWord(b, d.offset, d.filesz, 8);
    if entries != [] {
      var rest := d.(offset := d.offset + 16, filesz := d.filesz - 16);
      assert dynamic[16..] == b[rest.offset..rest.offset + rest.filesz];
      EntriesAre(b, rest);
      var more := Entries(dynamic[16..]).value;
      assert entries[1..] == more;
      forall k | 0 <= k < |entries|
        ensures entries[k] == (Signed(Word(b, d.offset + 16 * k, 8)), Word(b, d.offset + 16 * k + 8, 8)) && entries[k].0 != 0
      {
        if k > 0 {
          assert entries[k] == more[k - 1] && rest.offset + 16 * (k - 1) == d.offset + 16 * k;
        }
      }
      assert rest.offset + 16 * |more| == d.offset + 16 * |entries|;
    }
  }

  /** The interpreter is the one string that fills its segment. */
  ghost predicate InterpreterAt(b: Bytes, segs: seq<Segment>, i: int, name: string) {
    && 0 <= i < |segs| && segs[i].tag == PT_INTERP && |name| > 0 && |name| + 1 == segs[i].filesz
    && StringAt(b, segs[i].offset, name)
  }

  lemma InterpreterIs(b: Bytes, segs: seq<Segment>, i: nat)
    requires i < |segs| && segs[i].tag == PT_INTERP && InFile(b, segs[i].offset, segs[i].filesz)
    requires Interpreter(b, segs[i]).Some?
    ensures InterpreterAt(b, segs, i, Interpreter(b, segs[i]).value)
  {
    hide CString, StringAt;
    CStringAt(b, segs[i].offset, segs[i].filesz, 0);
  }

  /**
    The names of an accepted file are those its dynamic segment refers to, read from the string table
    that the segment names; without such a segment there are none.
  */
  lemma AcceptedNames(b: Bytes, limit: int)
    requires Metadata(b, limit).Some?
    ensures HeaderOk(b, limit)
    ensures var info, segs := Metadata(b, limit).value, Segments(b, Word(b, 32, 8), Word(b, 56, 2));
            && SegmentsOk(b, segs) && info.machine == Word(b, 18, 2)
            && info.interpreter == Scanned(b, segs).interpreter
            && ((forall s :: s in segs ==> s.tag != PT_DYNAMIC) ==> info.needed == [] && info.rpath == [])
            && (forall d :: d in segs && d.tag == PT_DYNAMIC ==> exists entries :: DynamicEntries(b, d, entries) && NamesOf(b, segs, entries, info))
  {
    hide NamesOf, Names, Entries, Find, Loads, Interpreter, DynamicEntries;
    var segs := Segments(b, Word(b, 32, 8), Word(b, 56, 2));
    FindIs(segs, PT_DYNAMIC);
    FindIs(segs, PT_INTERP);
    LoadsAre(segs);
    match Find(segs, PT_DYNAMIC)
    case None =>
    case Some(d) =>
      match Entries(b[d.offset..d.offset + d.filesz])
      case None =>
      case Some(entries) =>
        var interpreter := match Find(segs, PT_INTERP) case None => None case Some(s) => Interpreter(b, s);
        TableNames(b, segs, entries, Info([], [], interpreter, Word(b, 18, 2)));
        EntriesAre(b, d);
        forall e | e in segs && e.tag == PT_DYNAMIC ensures e == d {
          OnlyOne(segs, PT_DYNAMIC, e, d);
        }
  }

  lemma OnlyOne(segs: seq<Segment>, tag: nat, a: Segment, b: Segment)
    requires AtMostOne(segs, tag) && a in segs && b in segs && a.tag == b.tag == tag
    ensures a == b
  {
  }

  lemma AcceptedInterpreter(b: Bytes, limit: int)
    requires Metadata(b, limit).Some?
    ensures HeaderOk(b, limit)
    ensures var name, segs := Metadata(b, limit).value.interpreter, Segments(b, Word(b, 32, 8), Word(b, 56, 2));
            && (name.Some? ==> exists i :: InterpreterAt(b, segs, i, name.value))
            && (name.None? ==> forall s :: s in segs ==> s.tag != PT_INTERP)
  {
    hide Metadata, InterpreterAt, Interpreter, Word, Find;
    AcceptedNames(b, limit);
    var segs := Segments(b, Word(b, 32, 8), Word(b, 56, 2));
    FindIs(segs, PT_INTERP);
    if Find(segs, PT_INTERP).Some? {
      var i :| 0 <= i < |segs| && segs[i] == Find(segs, PT_INTERP).value;
      assert SegmentOk(b, segs[i]);
      InterpreterIs(b, segs, i);
    }
  }

  // ----- validate_template -----

  function Machine(target: string): Option<nat> {
    if target == "x86_64-linux" then Some(X86_64) else if target == "aarch64-linux" then Some(AARCH64) else None
  }

  predicate PowerOfTwo(n: nat) { n == 1 || (n > 1 && n % 2 == 0 && PowerOfTwo(n / 2)) }

  predicate Executable(s: Segment) { s.flags % 2 == 1 }

  predicate Writable(s: Segment) { s.flags / 2 % 2 == 1 }

  predicate TemplateHeader(b: Bytes, machine: nat) {
    && 64 <= |b| <= MAX_TEMPLATE && b[..7] == [0x7f, 0x45, 0x4c, 0x46, 2, 1, 1]
    && b[7] in {0, 3} && b[8] == 0 && (forall i :: 9 <= i < 16 ==> b[i] == 0)
    && Word(b, 16, 2) == 2 && Word(b, 18, 2) == machine && Word(b, 20, 4) == 1 && Word(b, 52, 2) == 64 && Word(b, 48, 4) == 0
    && 0 < Word(b, 56, 2) <= MAX_HEADERS && Word(b, 54, 2) == 56 && Word(b, 32, 8) >= 64
    && InFile(b, Word(b, 32, 8), 56 * Word(b, 56, 2))
  }

  predicate LoadOk(s: Segment) {
    && s.filesz <= s.memsz && s.virtual + s.memsz <= TWO64 && s.flags < 8
    && (s.align in {0, 1} || (PowerOfTwo(s.align) && s.offset % s.align == s.virtual % s.align))
    && !(Executable(s) && Writable(s))
  }

  predicate TemplateSegment(b: Bytes, s: Segment) {
    && InFile(b, s.offset, s.filesz) && s.tag != PT_DYNAMIC && s.tag != PT_INTERP
    && (s.tag == PT_LOAD ==> LoadOk(s))
    && (s.tag == PT_GNU_STACK ==> !Executable(s) && s.memsz == 0)
  }

  /** The entry is in the file-backed part of an executable load. */
  predicate HasEntry(s: Segment, entry: nat) {
    s.tag == PT_LOAD && Executable(s) && s.virtual <= entry < s.virtual + s.filesz
  }

  function Stacks(segs: seq<Segment>): nat {
    if segs == [] then 0
    else Stacks(segs[..|segs| - 1]) + if segs[|segs| - 1].tag == PT_GNU_STACK then 1 else 0
  }

  type Span = (nat, nat)

  function SpanOf(s: Segment): Span { (s.virtual, s.virtual + s.memsz) }

  function Spans(segs: seq<Segment>): seq<Span> {
    if segs == [] then []
    else
      var last := segs[|segs| - 1];
      Spans(segs[..|segs| - 1]) + if last.tag == PT_LOAD then [SpanOf(last)] else []
  }

  predicate Apart(a: Span, b: Span) { a.1 <= b.0 || b.1 <= a.0 }

  predicate AllApart(spans: seq<Span>) {
    forall i, j :: 0 <= i < j < |spans| ==> Apart(spans[i], spans[j])
  }

  predicate SectionOk(b: Bytes, at: nat, shnum: nat)
    requires at + 64 <= |b|
  {
    var kind, offset, size, link, align := Word(b, at + 4, 4), Word(b, at + 24, 8), Word(b, at + 32, 8), Word(b, at + 40, 4), Word(b, at + 48, 8);
    && kind != 6 && (kind in {0, 8} || InFile(b, offset, size))
    && (align in {0, 1} || PowerOfTwo(align)) && link < shnum
  }

  predicate SectionsOk(b: Bytes)
    requires |b| >= 64
  {
    var shoff, shsize, shnum, shstr := Word(b, 40, 8), Word(b, 58, 2), Word(b, 60, 2), Word(b, 62, 2);
    if shoff == 0 then shnum == 0 && shstr == 0 && shsize in {0, 64}
    else
      && shoff >= 64 && shsize == 64 && 0 < shnum <= MAX_SECTIONS && shstr < shnum && InFile(b, shoff, shnum * 64)
      && forall i :: 0 <= i < shnum ==> SectionOk(b, shoff + i * 64, shnum)
  }

  /** "OMUXLNXLAUNCHv1" and a zero byte. */
  const LAUNCH_MAGIC: Bytes := [79, 77, 85, 88, 76, 78, 88, 76, 65, 85, 78, 67, 72, 118, 49, 0]

  predicate HasRecord(b: Bytes) { |b| >= 256 && b[|b| - 256..|b| - 240] == LAUNCH_MAGIC }

  /** What the generator promises of a template. */
  predicate GoodTemplate(b: Bytes, target: string) {
    && Machine(target).Some? && TemplateHeader(b, Machine(target).value)
    && var segs := Segments(b, Word(b, 32, 8), Word(b, 56, 2));
       && (forall s :: s in segs ==> TemplateSegment(b, s))
       && Stacks(segs) == 1 && (exists s :: s in segs && HasEntry(s, Word(b, 24, 8)))
       && AllApart(Spans(segs)) && SectionsOk(b) && !HasRecord(b)
  }

  // ----- Sorting the spans decides whether they are apart -----

  predicate SpanLess(a: Span, b: Span) { a.0 < b.0 || (a.0 == b.0 && a.1 < b.1) }

  function Insert(x: Span, spans: seq<Span>): seq<Span> {
    if spans == [] || !SpanLess(spans[0], x) then [x] + spans else [spans[0]] + Insert(x, spans[1..])
  }

  predicate FarFrom(x: Span, spans: seq<Span>) { forall y :: y in spans ==> Apart(x, y) }

  /** Each span starts at or after the end of the one before. */
  predicate Chained(spans: seq<Span>) { forall i :: 0 <= i < |spans| - 1 ==> spans[i].1 <= spans[i + 1].0 }

  ghost predicate Proper(spans: seq<Span>) { forall s :: s in spans ==> s.0 <= s.1 }

  ghost predicate SpansSorted(spans: seq<Span>) {
    forall i, j :: 0 <= i < j < |spans| ==> !SpanLess(spans[j], spans[i])
  }

  lemma {:induction false} InsertMembers(x: Span, spans: seq<Span>)
    ensures forall y :: y in Insert(x, spans) <==> y == x || y in spans
  {
    if spans != [] {
      InsertMembers(x, spans[1..]);
      assert spans == [spans[0]] + spans[1..];
    }
  }

  lemma ApartCons(x: Span, spans: seq<Span>)
    ensures AllApart([x] + spans) <==> FarFrom(x, spans) && AllApart(spans)
  {
    hide Apart;
    var all := [x] + spans;
    assert spans == all[1..];
    if AllApart(all) {
      forall y | y in spans ensures Apart(x, y) {
        var i :| 0 <= i < |spans| && spans[i] == y;
        assert all[0] == x && all[i + 1] == y;
      }
    }
  }

  lemma {:induction false} InsertApart(x: Span, spans: seq<Span>)
    ensures AllApart(Insert(x, spans)) <==> FarFrom(x, spans) && AllApart(spans)
  {
    ApartCons(x, spans);
    if spans != [] && SpanLess(spans[0], x) {
      hide Apart, AllApart;
      var rest := spans[1..];
      assert spans == [spans[0]] + rest;
      InsertApart(x, rest);
      InsertMembers(x, rest);
      ApartCons(spans[0], rest);
      ApartCons(spans[0], Insert(x, rest));
      ApartSymmetric(x, spans[0]);
    }
  }

  lemma ApartSymmetric(a: Span, b: Span)
    ensures Apart(a, b) == Apart(b, a)
  {
  }

  lemma SortedCons(x: Span, spans: seq<Span>)
    ensures SpansSorted([x] + spans) <==> SpansSorted(spans) && forall y :: y in spans ==> !SpanLess(y, x)
  {
    hide SpanLess;
    var all := [x] + spans;
    assert spans == all[1..];
    if SpansSorted(all) {
      forall y | y in spans ensures !SpanLess(y, x) {
        var i :| 0 <= i < |spans| && spans[i] == y;
        assert all[0] == x && all[i + 1] == y;
      }
    }
  }

  lemma {:induction false} InsertSorted(x: Span, spans: seq<Span>)
    requires SpansSorted(spans)
    ensures SpansSorted(Insert(x, spans))
  {
    hide SpansSorted;
    SortedCons(x, spans);
    if spans != [] {
      var rest := spans[1..];
      assert spans == [spans[0]] + rest;
      SortedCons(spans[0], rest);
      if SpanLess(spans[0], x) {
        InsertSorted(x, rest);
        InsertMembers(x, rest);
        SortedCons(spans[0], Insert(x, rest));
      }
    }
  }

  /** In sorted order it is enough to compare neighbours. */
  lemma ChainedIsApart(spans: seq<Span>)
    requires SpansSorted(spans) && Proper(spans)
    ensures Chained(spans) <==> AllApart(spans)
  {
    if Chained(spans) {
      forall i, j | 0 <= i < j < |spans| ensures Apart(spans[i], spans[j]) {
        ChainReaches(spans, i, j);
      }
    }
    if AllApart(spans) {
      forall i | 0 <= i < |spans| - 1 ensures spans[i].1 <= spans[i + 1].0 {
        assert Apart(spans[i], spans[i + 1]) && !SpanLess(spans[i + 1], spans[i]);
        assert spans[i] in spans && spans[i + 1] in spans;
      }
    }
  }

  lemma {:induction false} ChainReaches(spans: seq<Span>, i: nat, j: nat)
    requires Chained(spans) && Proper(spans) && i < j < |spans|
    ensures spans[i].1 <= spans[j].0
    decreases j - i
  {
    if i + 1 < j {
      ChainReaches(spans, i, j - 1);
      assert spans[j - 1] in spans;
    }
  }

  /** loads.sort() */
  method Sort(spans: seq<Span>) returns (sorted: seq<Span>)
    ensures SpansSorted(sorted) && (AllApart(sorted) <==> AllApart(spans))
    ensures forall s :: s in sorted <==> s in spans
  {
    hide SpansSorted, AllApart, Insert, FarFrom;
    sorted := [];
    assert SpansSorted([]) && AllApart([]) by { NoSpans(); }
    assert spans[|spans|..] == [];
    var i := |spans|;
    while i > 0
      invariant 0 <= i <= |spans| && SpansSorted(sorted)
      invariant AllApart(sorted) <==> AllApart(spans[i..])
      invariant forall s :: s in sorted <==> s in spans[i..]
    {
      i := i - 1;
      assert spans[i..] == [spans[i]] + spans[i + 1..];
      InsertSorted(spans[i], sorted);
      InsertApart(spans[i], sorted);
      InsertMembers(spans[i], sorted);
      ApartCons(spans[i], spans[i + 1..]);
      FarSame(spans[i], sorted, spans[i + 1..]);
      sorted := Insert(spans[i], sorted);
    }
    assert spans[0..] == spans;
  }

  lemma NoSpans()
    ensures SpansSorted([]) && AllApart([])
  {
  }

  lemma FarSame(x: Span, s: seq<Span>, t: seq<Span>)
    requires forall y :: y in s <==> y in t
    ensures FarFrom(x, s) == FarFrom(x, t)
  {
  }

  lemma SpansMore(segs: seq<Segment>, s: Segment)
    ensures Spans(segs + [s]) == Spans(segs) + if s.tag == PT_LOAD then [SpanOf(s)] else []
    ensures Stacks(segs + [s]) == Stacks(segs) + if s.tag == PT_GNU_STACK then 1 else 0
  {
  }

  /** The program headers, one by one. */
  method CheckSegments(b: Bytes, phoff: nat, phnum: nat, entry: nat)
    returns (ok: bool, loads: seq<Span>, executableEntry: bool, stacks: nat)
    requires phoff + 56 * phnum <= |b|
    ensures ok <==> forall s :: s in Segments(b, phoff, phnum) ==> TemplateSegment(b, s)
    ensures ok ==> loads == Spans(Segments(b, phoff, phnum)) && stacks == Stacks(Segments(b, phoff, phnum))
    ensures ok ==> (executableEntry <==> exists s :: s in Segments(b, phoff, phnum) && HasEntry(s, entry))
    ensures ok ==> Proper(loads)
  {
    hide Word, Spans, Stacks, PowerOfTwo, HasEntry, LoadOk;
    ghost var segs := Segments(b, phoff, phnum);
    loads, executableEntry, stacks := [], false, 0;
    assert Spans(segs[..0]) == [] && Stacks(segs[..0]) == 0 by { NoSegments(segs[..0]); }
    for index := 0 to phnum
      invariant forall s :: s in segs[..index] ==> TemplateSegment(b, s)
      invariant loads == Spans(segs[..index]) && stacks == Stacks(segs[..index])
      invariant executableEntry <==> exists s :: s in segs[..index] && HasEntry(s, entry)
      invariant Proper(loads)
    {
      var s := SegmentAt(b, phoff + index * 56);
      assert s == segs[index] && segs[..index + 1] == segs[..index] + [s] && s in segs;
      SpansMore(segs[..index], s);
      if !InFile(b, s.offset, s.filesz) || s.tag == PT_DYNAMIC || s.tag == PT_INTERP {
        return false, [], false, 0;
      }
      executableEntry := executableEntry || HasEntry(s, entry);
      if s.tag == PT_LOAD {
        if !LoadOk(s) {
          return false, [], false, 0;
        }
        loads := loads + [SpanOf(s)];
      } else if s.tag == PT_GNU_STACK {
        stacks := stacks + 1;
        if Executable(s) || s.memsz != 0 {
          return false, [], false, 0;
        }
      }
      assert TemplateSegment(b, s);
    }
    assert segs[..phnum] == segs;
    ok := true;
  }

  lemma NoSegments(segs: seq<Segment>)
    requires segs == []
    ensures Spans(segs) == [] && Stacks(segs) == 0
  {
  }

  method CheckSections(b: Bytes) returns (ok: bool)
    requires |b| >= 64
    ensures ok <==> SectionsOk(b)
  {
    hide Word, PowerOfTwo, SectionOk;
    var shoff, shsize, shnum, shstr := Word(b, 40, 8), Word(b, 58, 2), Word(b, 60, 2), Word(b, 62, 2);
    if shoff == 0 {
      return shnum == 0 && shstr == 0 && shsize in {0, 64};
    }
    if shoff < 64 || shsize != 64 || !(0 < shnum <= MAX_SECTIONS) || shstr >= shnum || !InFile(b, shoff, shnum * 64) {
      return false;
    }
    for index := 0 to shnum
      invariant forall i :: 0 <= i < index ==> SectionOk(b, shoff + i * 64, shnum)
    {
      if !SectionOk(b, shoff + index * 64, shnum) {
        return false;
      }
    }
    return true;
  }

  method ValidateTemplate(payload: Bytes, target: string) returns (ok: bool)
    ensures ok <==> GoodTemplate(payload, target)
  {
    hide Word, Spans, Stacks, TemplateSegment, SectionsOk, HasRecord, HasEntry, AllApart, Proper;
    var machine := Machine(target);
    if machine.None? || !TemplateHeader(payload, machine.value) {
      return false;
    }
    var entry, phoff, phnum := Word(payload, 24, 8), Word(payload, 32, 8), Word(payload, 56, 2);
    var fine, loads, executableEntry, stacks := CheckSegments(payload, phoff, phnum, entry);
    if !fine || stacks != 1 || !executableEntry {
      return false;
    }
    var sorted := Sort(loads);
    assert Proper(sorted) by { ProperSame(loads, sorted); }
    ChainedIsApart(sorted);
    if !Chained(sorted) {
      return false;
    }
    var sections := CheckSections(payload);
    return sections && !HasRecord(payload);
  }

  lemma ProperSame(s: seq<Span>, t: seq<Span>)
    requires Proper(s) && forall y :: y in t ==> y in s
    ensures Proper(t)
  {
  }

  // ----- What an accepted template is -----

  predicate InSegment(s: Segment, address: nat) { s.tag == PT_LOAD && s.virtual <= address < s.virtual + s.memsz }

  lemma {:induction false} SpansApart(segs: seq<Segment>)
    requires AllApart(Spans(segs))
    ensures forall i, j :: 0 <= i < j < |segs| && segs[i].tag == PT_LOAD && segs[j].tag == PT_LOAD ==>
              Apart(SpanOf(segs[i]), SpanOf(segs[j]))
    ensures forall i :: 0 <= i < |segs| && segs[i].tag == PT_LOAD ==> SpanOf(segs[i]) in Spans(segs)
  {
    if segs != [] {
      var init, last := segs[..|segs| - 1], segs[|segs| - 1];
      var spans := Spans(segs);
      assert Spans(init) == spans[..|Spans(init)|];
      SpansApart(init);
      assert forall i :: 0 <= i < |init| ==> init[i] == segs[i];
      if last.tag == PT_LOAD {
        assert spans[|spans| - 1] == SpanOf(last);
        forall i | 0 <= i < |init| && segs[i].tag == PT_LOAD ensures Apart(SpanOf(segs[i]), SpanOf(last)) {
          var k :| 0 <= k < |Spans(init)| && Spans(init)[k] == SpanOf(init[i]);
          assert spans[k] == SpanOf(segs[i]);
        }
      }
    }
  }

  /**
    The loads of an accepted template are pairwise disjoint, and its entry is in exactly one of
    them, which is executable and not writable.
  */
  lemma TemplateEntry(b: Bytes, target: string) returns (e: nat)
    requires GoodTemplate(b, target)
    ensures var segs, entry := Segments(b, Word(b, 32, 8), Word(b, 56, 2)), Word(b, 24, 8);
            && e < |segs| && InSegment(segs[e], entry) && Executable(segs[e]) && !Writable(segs[e])
            && (forall i :: 0 <= i < |segs| && InSegment(segs[i], entry) ==> i == e)
            && (forall i, j, x :: 0 <= i < |segs| && 0 <= j < |segs| && InSegment(segs[i], x) && InSegment(segs[j], x) ==> i == j)
  {
    hide Word, SectionsOk, HasRecord, Stacks, Spans, PowerOfTwo;
    var segs, entry := Segments(b, Word(b, 32, 8), Word(b, 56, 2)), Word(b, 24, 8);
    SpansApart(segs);
    var s :| s in segs && HasEntry(s, entry);
    e :| 0 <= e < |segs| && segs[e] == s;
    assert TemplateSegment(b, s);
    forall i, j, x | 0 <= i < j < |segs| && InSegment(segs[i], x) ensures !InSegment(segs[j], x) {
      assert segs[j].tag == PT_LOAD ==> Apart(SpanOf(segs[i]), SpanOf(segs[j]));
    }
  }

  /**
    The generator and the assembler agree on a template exactly when no header claims more file bytes
    than memory: the generator asks that only of loads, the assembler of every header.
  */
  lemma TemplateMetadata(b: Bytes, target: string)
    requires GoodTemplate(b, target)
    ensures (forall s :: s in Segments(b, Word(b, 32, 8), Word(b, 56, 2)) ==> s.filesz <= s.memsz)
            <==> Metadata(b, MAX_FILE) == Some(Info([], [], None, Machine(target).value))
    ensures Metadata(b, MAX_FILE).Some? ==> Metadata(b, MAX_FILE).value == Info([], [], None, Machine(target).value)
  {
    hide Word, SectionsOk, HasRecord, Stacks, Spans, PowerOfTwo, HasEntry, LoadOk, Names, Entries, Interpreter;
    var segs := Segments(b, Word(b, 32, 8), Word(b, 56, 2));
    FindIs(segs, PT_DYNAMIC);
    FindIs(segs, PT_INTERP);
    assert HeaderOk(b, MAX_FILE);
    assert forall s :: s in segs ==> TemplateSegment(b, s);
    if forall s :: s in segs ==> s.filesz <= s.memsz {
      forall i | 0 <= i < |segs| ensures SegmentOk(b, segs[i]) {
        assert segs[i] in segs;
      }
      assert SegmentsOk(b, segs);
    } else {
      var s :| s in segs && s.filesz > s.memsz;
      var i :| 0 <= i < |segs| && segs[i] == s;
      assert !SegmentOk(b, segs[i]);
    }
  }

  // ----- A template on which they disagree -----

  /** A header, one load of the whole file, and a stack header that claims one file byte. */
  function OddByte(i: nat): Byte {
    if i == 0 then 0x7f else if i == 1 then 0x45 else if i == 2 then 0x4c else if i == 3 then 0x46
    else if i == 4 then 2 else if i == 5 || i == 6 then 1
    else if i == 16 then 2 else if i == 18 then 62 else if i == 20 then 1 else if i == 24 then 120
    else if i == 32 || i == 52 then 64 else if i == 54 then 56 else if i == 56 then 2
    else if i == 64 then 1 else if i == 68 then 5 else if i == 96 || i == 104 then 176 else if i == 112 then 1
    else if i == 120 then 0x51 else if i == 121 then 0xE5 else if i == 122 then 0x74 else if i == 123 then 0x64
    else if i == 124 then 6 else if i == 152 then 1
    else 0
  }

  function OddTemplate(): (b: Bytes)
    ensures |b| == 176 && forall i :: 0 <= i < 176 ==> b[i] == OddByte(i)
  {
    seq(176, i requires 0 <= i < 176 => OddByte(i))
  }

  lemma {:induction false} ValueOfZeros(b: Bytes)
    requires forall i :: 0 <= i < |b| ==> b[i] == 0
    ensures Value(b) == 0
  {
    if b != [] {
      ValueOfZeros(b[1..]);
    }
  }

  /** A field whose bytes are zero but for the first. */
  lemma SmallWord(b: Bytes, at: nat, width: nat)
    requires 0 < width && at + width <= |b| && forall i :: at < i < at + width ==> b[i] == 0
    ensures Word(b, at, width) == b[at]
  {
    var field := b[at..at + width];
    forall i | 0 <= i < |field[1..]| ensures field[1..][i] == 0 {
      assert field[1..][i] == b[at + 1 + i];
    }
    ValueOfZeros(field[1..]);
  }

  function OddWord(at: nat, width: nat): nat
    requires at + width <= 176
  {
    Word(OddTemplate(), at, width)
  }

  lemma OddField(at: nat, width: nat)
    requires 0 < width && at + width <= 176 && forall i :: at < i < at + width ==> OddByte(i) == 0
    ensures OddWord(at, width) == OddByte(at)
  {
    hide OddByte, Word;
    SmallWord(OddTemplate(), at, width);
  }

  lemma OddFields0()
    ensures OddWord(16, 2) == 2 && OddWord(18, 2) == 62 && OddWord(20, 4) == 1 && OddWord(24, 8) == 120 && OddWord(32, 8) == 64
  {
    hide Word;
    OddField(16, 2);
    OddField(18, 2);
    OddField(20, 4);
    OddField(24, 8);
    OddField(32, 8);
  }

  lemma OddFields1()
    ensures OddWord(40, 8) == 0 && OddWord(48, 4) == 0 && OddWord(52, 2) == 64 && OddWord(54, 2) == 56
  {
    hide Word;
    OddField(40, 8);
    OddField(48, 4);
    OddField(52, 2);
    OddField(54, 2);
  }

  lemma OddFields2()
    ensures OddWord(56, 2) == 2 && OddWord(58, 2) == 0 && OddWord(60, 2) == 0 && OddWord(62, 2) == 0
  {
    hide Word;
    OddField(56, 2);
    OddField(58, 2);
    OddField(60, 2);
    OddField(62, 2);
  }

  lemma OddFields3()
    ensures OddWord(64, 4) == 1 && OddWord(68, 4) == 5 && OddWord(72, 8) == 0 && OddWord(80, 8) == 0
  {
    hide Word;
    OddField(64, 4);
    OddField(68, 4);
    OddField(72, 8);
    OddField(80, 8);
  }

  lemma OddFields4()
    ensures OddWord(96, 8) == 176 && OddWord(104, 8) == 176 && OddWord(112, 8) == 1
  {
    hide Word;
    OddField(96, 8);
    OddField(104, 8);
    OddField(112, 8);
  }

  lemma OddFields5()
    ensures OddWord(124, 4) == 6 && OddWord(128, 8) == 0 && OddWord(136, 8) == 0
  {
    hide Word;
    OddField(124, 4);
    OddField(128, 8);
    OddField(136, 8);
  }

  lemma OddFields6()
    ensures OddWord(152, 8) == 1 && OddWord(160, 8) == 0 && OddWord(168, 8) == 0
  {
    hide Word;
    OddField(152, 8);
    OddField(160, 8);
    OddField(168, 8);
  }

  lemma OddStackTag()
    ensures OddWord(120, 4) == PT_GNU_STACK
  {
    var b := OddTemplate();
    var f := b[120..124];
    assert f == [0x51, 0xE5, 0x74, 0x64] && f[1..] == [0xE5, 0x74, 0x64] && f[1..][1..] == [0x74, 0x64];
    assert [0x74, 0x64][1..] == [0x64] && [0x64][1..] == [];
    assert Value([0x64]) == 0x64 && Value([0x74, 0x64]) == 0x6474;
    assert Value(f[1..]) == 0x6474E5;
  }

  lemma OddIdent()
    ensures var b := OddTemplate(); b[..7] == [0x7f, 0x45, 0x4c, 0x46, 2, 1, 1] && b[7] == 0 && b[8] == 0 && forall i :: 9 <= i < 16 ==> b[i] == 0
  {
  }

  lemma OddHeader()
    ensures TemplateHeader(OddTemplate(), X86_64) && SectionsOk(OddTemplate()) && !HasRecord(OddTemplate())
    ensures Word(OddTemplate(), 32, 8) == 64 && Word(OddTemplate(), 56, 2) == 2 && Word(OddTemplate(), 24, 8) == 120
  {
    hide Word, OddByte;
    OddIdent();
    OddFields0();
    OddFields1();
    OddFields2();
  }

  lemma OddSegments()
    ensures SegmentAt(OddTemplate(), 64) == Segment(PT_LOAD, 5, 0, 0, 176, 176, 1)
    ensures SegmentAt(OddTemplate(), 120) == Segment(PT_GNU_STACK, 6, 0, 0, 1, 0, 0)
  {
    hide Word, OddByte;
    OddFields3();
    OddFields4();
    OddFields5();
    OddFields6();
    OddStackTag();
  }

  lemma LoadAndStack(load: Segment, stack: Segment)
    requires load.tag == PT_LOAD && stack.tag == PT_GNU_STACK
    ensures Stacks([load, stack]) == 1 && Spans([load, stack]) == [SpanOf(load)]
  {
    assert [load, stack][..1] == [load] && [load][..0] == [];
    assert Stacks([load]) == 0 && Spans([load]) == [SpanOf(load)];
  }

  /** Any small file with these two headers. */
  lemma StackClaimsByte(b: Bytes)
    requires |b| == 176 && TemplateHeader(b, X86_64) && SectionsOk(b) && !HasRecord(b)
    requires Word(b, 32, 8) == 64 && Word(b, 56, 2) == 2 && Word(b, 24, 8) == 120
    requires SegmentAt(b, 64) == Segment(PT_LOAD, 5, 0, 0, 176, 176, 1)
    requires SegmentAt(b, 120) == Segment(PT_GNU_STACK, 6, 0, 0, 1, 0, 0)
    ensures GoodTemplate(b, "x86_64-linux") && Metadata(b, MAX_FILE) == None
  {
    hide Word, SegmentAt, SectionsOk, HasRecord, TemplateHeader, Stacks, Spans, Metadata;
    var load, stack := SegmentAt(b, 64), SegmentAt(b, 120);
    var segs := Segments(b, 64, 2);
    assert segs == [load, stack] && load in segs && stack in segs;
    LoadAndStack(load, stack);
    assert HasEntry(load, 120);
    assert TemplateSegment(b, load) && TemplateSegment(b, stack);
    assert stack.filesz > stack.memsz;
    TemplateMetadata(b, "x86_64-linux");
  }

  /** The generator accepts it; the assembler does not read it. */
  lemma OddDisagreement()
    ensures GoodTemplate(OddTemplate(), "x86_64-linux") && Metadata(OddTemplate(), MAX_FILE) == None
  {
    hide Word, SegmentAt, GoodTemplate, Metadata, TemplateHeader, SectionsOk, HasRecord;
    OddHeader();
    OddSegments();
    StackClaimsByte(OddTemplate());
  }
}
