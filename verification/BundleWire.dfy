/**
  The bundle wire format of nix/home_manager_bundle.py: what `pack` writes, what
  `RepresentationStream` yields, and what `materialize` reads back.

  A frame is the magic line, four headers each behind its length in eight little-endian bytes, and
  the contents of the regular files in the order of `Entries`.  `Parse` is the plain reading of a
  complete byte string; `Materialize` works through a source that may give fewer bytes than asked.
  Deciding what the headers describe (JSON, schemas, pinned digests, size bounds) is a parameter:
  a function from headers to the described trees, or to nothing where they are refused.
*/
module BundleWire {

  import opened Basics

  const CHUNK: nat := 65536
  const MAX_BUNDLE: nat := 8 * 1024 * 1024 * 1024

  /** "OMUX-HM-BUNDLE-1" and a line end. */
  const MAGIC: Bytes := [79, 77, 85, 88, 45, 72, 77, 45, 66, 85, 78, 68, 76, 69, 45, 49, 10]

  /** The largest pair receipt, inventory, artifact receipt and artifact node list that is read. */
  const LIMITS: seq<nat> := [65536, 64 * 1024 * 1024, 65536, 1024 * 1024]

  datatype Node = Directory(path: string)
                | Regular(path: string, size: nat, executable: bool)
                | Symlink(path: string, target: string)

  datatype Described = Described(homeManager: seq<Node>, nixpkgs: seq<Node>, artifact: seq<Node>)

  datatype Entry = Entry(tree: string, path: string, size: nat)

  const TREES: seq<string> := ["home-manager", "nixpkgs", "artifact"]

  type Describe = seq<Bytes> -> Option<Described>

  // ----- The frame -----

  function PathOf(node: Node): string { node.path }

  function EntryPath(entry: Entry): string { entry.path }

  function Regulars(tree: string, nodes: seq<Node>): seq<Entry> {
    if nodes == [] then []
    else (if nodes[0].Regular? then [Entry(tree, nodes[0].path, nodes[0].size)] else []) + Regulars(tree, nodes[1..])
  }

  function Entries(d: Described): seq<Entry> {
    Regulars(TREES[0], SortBy(PathOf, d.homeManager)) + Regulars(TREES[1], SortBy(PathOf, d.nixpkgs))
    + Regulars(TREES[2], SortBy(PathOf, d.artifact))
  }

  /** Tree by tree, and by path within a tree. */
  predicate Precedes(a: Entry, b: Entry) {
    if a.tree == b.tree then !LexLess(b.path, a.path) else exists i, j :: 0 <= i < j < |TREES| && TREES[i] == a.tree && TREES[j] == b.tree
  }

  /** The regular nodes of every tree, none dropped or repeated, in the order of trees and paths. */
  lemma EntriesOrder(d: Described)
    ensures multiset(Entries(d)) == multiset(Regulars(TREES[0], d.homeManager)) + multiset(Regulars(TREES[1], d.nixpkgs))
                                    + multiset(Regulars(TREES[2], d.artifact))
    ensures forall i, j :: 0 <= i < j < |Entries(d)| ==> Precedes(Entries(d)[i], Entries(d)[j])
  {
    hide LexLess, SortBy, Regulars;
    RegularsSorted(TREES[0], d.homeManager);
    RegularsSorted(TREES[1], d.nixpkgs);
    RegularsSorted(TREES[2], d.artifact);
  }

  /** Sorting a tree keeps its files and puts them in the order of their paths. */
  lemma RegularsSorted(tree: string, nodes: seq<Node>)
    ensures var files := Regulars(tree, SortBy(PathOf, nodes));
            && multiset(files) == multiset(Regulars(tree, nodes))
            && (forall i :: 0 <= i < |files| ==> files[i].tree == tree)
            && OrderedBy(EntryPath, files)
  {
    hide LexLess, SortBy, Regulars;
    RegularsSort(tree, nodes);
    SortOrders(PathOf, nodes);
    RegularsOrdered(tree, SortBy(PathOf, nodes));
    RegularsNamed(tree, SortBy(PathOf, nodes));
  }

  lemma RegularsCons(tree: string, x: Node, nodes: seq<Node>)
    ensures Regulars(tree, [x] + nodes) == Regulars(tree, [x]) + Regulars(tree, nodes)
  {
    assert ([x] + nodes)[1..] == nodes;
  }

  lemma {:induction false} RegularsInsert(tree: string, x: Node, nodes: seq<Node>)
    ensures multiset(Regulars(tree, InsertBy(PathOf, x, nodes))) == multiset(Regulars(tree, [x])) + multiset(Regulars(tree, nodes))
  {
    hide LexLess, Regulars;
    if nodes != [] && LexLess(PathOf(nodes[0]), PathOf(x)) {
      RegularsInsert(tree, x, nodes[1..]);
      RegularsCons(tree, nodes[0], InsertBy(PathOf, x, nodes[1..]));
      RegularsCons(tree, nodes[0], nodes[1..]);
      assert nodes == [nodes[0]] + nodes[1..];
    } else {
      RegularsCons(tree, x, nodes);
    }
  }

  lemma {:induction false} RegularsSort(tree: string, nodes: seq<Node>)
    ensures multiset(Regulars(tree, SortBy(PathOf, nodes))) == multiset(Regulars(tree, nodes))
  {
    if nodes != [] {
      hide InsertBy, Regulars;
      RegularsSort(tree, nodes[1..]);
      RegularsInsert(tree, nodes[0], SortBy(PathOf, nodes[1..]));
      RegularsCons(tree, nodes[0], nodes[1..]);
      assert nodes == [nodes[0]] + nodes[1..];
    }
  }

  ghost predicate Named(nodes: seq<Node>, path: string) { exists n :: n in nodes && PathOf(n) == path }

  lemma {:induction false} RegularsNamed(tree: string, nodes: seq<Node>)
    ensures forall e :: e in Regulars(tree, nodes) ==> e.tree == tree && Named(nodes, e.path)
  {
    if nodes != [] {
      RegularsNamed(tree, nodes[1..]);
      assert nodes == [nodes[0]] + nodes[1..];
      assert forall path :: Named(nodes[1..], path) ==> Named(nodes, path);
      assert PathOf(nodes[0]) == nodes[0].path;
    }
  }

  lemma {:induction false} RegularsOrdered(tree: string, nodes: seq<Node>)
    requires OrderedBy(PathOf, nodes)
    ensures OrderedBy(EntryPath, Regulars(tree, nodes))
  {
    hide LexLess, OrderedBy;
    if nodes == [] {
      OrderedNone(EntryPath);
    } else {
      var rest := Regulars(tree, nodes[1..]);
      assert nodes == [nodes[0]] + nodes[1..];
      OrderedCons(PathOf, nodes[0], nodes[1..]);
      RegularsOrdered(tree, nodes[1..]);
      RegularsNamed(tree, nodes[1..]);
      OrderedCons(EntryPath, Entry(tree, nodes[0].path, if nodes[0].Regular? then nodes[0].size else 0), rest);
      assert [] + rest == rest;
    }
  }

  function FrameHeaders(headers: seq<Bytes>): Bytes {
    if headers == [] then [] else LittleEndian(|headers[0]|, 8) + headers[0] + FrameHeaders(headers[1..])
  }

  function Flat(parts: seq<Bytes>): Bytes {
    if parts == [] then [] else parts[0] + Flat(parts[1..])
  }

  function Frame(headers: seq<Bytes>, files: seq<Bytes>): Bytes {
    MAGIC + FrameHeaders(headers) + Flat(files)
  }

  predicate Fits(headers: seq<Bytes>, limits: seq<nat>) {
    |headers| == |limits| && forall i :: 0 <= i < |limits| ==> 0 < |headers[i]| <= limits[i] < TWO64
  }

  predicate Sized(files: seq<Bytes>, entries: seq<Entry>) {
    |files| == |entries| && forall i :: 0 <= i < |files| ==> |files[i]| == entries[i].size
  }

  /** No two entries are the same file. */
  predicate Apart(entries: seq<Entry>) {
    forall i, j :: 0 <= i < j < |entries| ==> (entries[i].tree, entries[i].path) != (entries[j].tree, entries[j].path)
  }

  // ----- The plain reading -----

  function ParseHeaders(text: Bytes, limits: seq<nat>): Option<(seq<Bytes>, Bytes)> {
    if limits == [] then Some(([], text))
    else if |text| < 8 then None
    else
      var n := Value(text[..8]);
      if n == 0 || n > limits[0] || |text| < 8 + n then None
      else
        match ParseHeaders(text[8 + n..], limits[1..])
        case None => None
        case Some(more) => Some(([text[8..8 + n]] + more.0, more.1))
  }

  function ParseFiles(text: Bytes, entries: seq<Entry>): Option<seq<Bytes>> {
    if entries == [] then if text == [] then Some([]) else None
    else if |text| < entries[0].size then None
    else
      match ParseFiles(text[entries[0].size..], entries[1..])
      case None => None
      case Some(files) => Some([text[..entries[0].size]] + files)
  }

  datatype Parsed = Parsed(headers: seq<Bytes>, described: Described, files: seq<Bytes>)

  function Parse(describe: Describe, text: Bytes): Option<Parsed> {
    if |text| < |MAGIC| || text[..|MAGIC|] != MAGIC then None
    else
      match ParseHeaders(text[|MAGIC|..], LIMITS)
      case None => None
      case Some(h) =>
        match describe(h.0)
        case None => None
        case Some(d) =>
          if !Apart(Entries(d)) then None
          else
            match ParseFiles(h.1, Entries(d))
            case None => None
            case Some(files) => Some(Parsed(h.0, d, files))
  }

  /** A reading that has taken some headers already. */
  ghost function After(metadata: seq<Bytes>, more: Option<(seq<Bytes>, Bytes)>): Option<(seq<Bytes>, Bytes)> {
    if more.None? then None else Some((metadata + more.value.0, more.value.1))
  }

  lemma AfterMore(metadata: seq<Bytes>, header: Bytes, more: Option<(seq<Bytes>, Bytes)>)
    ensures After(metadata, After([header], more)) == After(metadata + [header], more)
    ensures After([], more) == more && (more.Some? && more.value.0 == [] ==> After(metadata, more) == Some((metadata, more.value.1)))
  {
    if more.Some? {
      assert metadata + ([header] + more.value.0) == metadata + [header] + more.value.0;
      assert [] + more.value.0 == more.value.0 && (more.value.0 == [] ==> metadata + more.value.0 == metadata);
    }
  }

  lemma ParseStep(text: Bytes, limits: seq<nat>)
    requires limits != [] && |text| >= 8 && 0 < Value(text[..8]) <= limits[0] && |text| >= 8 + Value(text[..8])
    ensures var n := Value(text[..8]);
            ParseHeaders(text, limits) == After([text[8..8 + n]], ParseHeaders(text[8 + n..], limits[1..]))
  {
  }

  /** A reading that has taken some files already. */
  ghost function AfterFiles(done: seq<Bytes>, more: Option<seq<Bytes>>): Option<seq<Bytes>> {
    if more.None? then None else Some(done + more.value)
  }

  lemma AfterFilesMore(done: seq<Bytes>, file: Bytes, more: Option<seq<Bytes>>)
    ensures AfterFiles(done, AfterFiles([file], more)) == AfterFiles(done + [file], more)
    ensures AfterFiles([], more) == more
  {
    if more.Some? {
      assert done + ([file] + more.value) == done + [file] + more.value;
      assert [] + more.value == more.value;
    }
  }

  // ----- Frames and their reading are inverse -----

  lemma {:induction false} ParseFramedHeaders(headers: seq<Bytes>, limits: seq<nat>, rest: Bytes)
    requires Fits(headers, limits)
    ensures ParseHeaders(FrameHeaders(headers) + rest, limits) == Some((headers, rest))
  {
    if headers == [] {
      assert FrameHeaders(headers) + rest == rest;
    } else {
      hide LittleEndian, ParseHeaders, Value;
      var n, more := |headers[0]|, FrameHeaders(headers[1..]) + rest;
      var text := LittleEndian(n, 8) + headers[0] + more;
      Regroup(LittleEndian(n, 8) + headers[0], FrameHeaders(headers[1..]), rest);
      Power8();
      ValueOfLittleEndian(n, 8);
      assert text[..8] == LittleEndian(n, 8) && text[8..8 + n] == headers[0] && text[8 + n..] == more;
      ParseStep(text, limits);
      ParseFramedHeaders(headers[1..], limits[1..], rest);
      assert headers == [headers[0]] + headers[1..];
    }
  }

  lemma FrameMore(header: Bytes, headers: seq<Bytes>, limits: seq<nat>)
    requires limits != [] && 0 < |header| <= limits[0] < TWO64 && Fits(headers, limits[1..])
    ensures FrameHeaders([header] + headers) == LittleEndian(|header|, 8) + header + FrameHeaders(headers)
    ensures Fits([header] + headers, limits)
  {
  }

  lemma Regroup(a: Bytes, b: Bytes, c: Bytes)
    ensures a + (b + c) == a + b + c
  {
  }

  lemma Shift(a: Bytes, b: Bytes, c: Bytes, n: nat)
    requires n <= |b|
    ensures a + (b + c) == a + b[..n] + (b[n..] + c)
  {
  }

  /** The header that parsing takes off the front. */
  lemma ParsedMore(text: Bytes, limits: seq<nat>) returns (header: Bytes, rest: Bytes)
    requires ParseHeaders(text, limits).Some? && limits != []
    ensures text == LittleEndian(|header|, 8) + header + rest && 0 < |header| <= limits[0]
    ensures ParseHeaders(rest, limits[1..]).Some?
    ensures var tail := ParseHeaders(rest, limits[1..]).value;
            ParseHeaders(text, limits) == Some(([header] + tail.0, tail.1))
  {
    hide LittleEndian, Value, Power;
    var n := Value(text[..8]);
    header, rest := text[8..8 + n], text[8 + n..];
    LittleEndianOfValue(text[..8]);
    assert text == text[..8] + header + rest;
  }

  lemma {:induction false} ParsedHeadersFrame(text: Bytes, limits: seq<nat>)
    requires ParseHeaders(text, limits).Some? && forall i :: 0 <= i < |limits| ==> limits[i] < TWO64
    ensures var parsed := ParseHeaders(text, limits).value;
            Fits(parsed.0, limits) && text == FrameHeaders(parsed.0) + parsed.1
    decreases |limits|
  {
    if limits == [] {
      assert text == FrameHeaders([]) + text;
    } else {
      hide ParseHeaders, LittleEndian, FrameHeaders, Fits;
      var header, rest := ParsedMore(text, limits);
      ParsedHeadersFrame(rest, limits[1..]);
      var tail := ParseHeaders(rest, limits[1..]).value;
      FrameMore(header, tail.0, limits);
      Regroup(LittleEndian(|header|, 8) + header, FrameHeaders(tail.0), tail.1);
    }
  }

  lemma ParseOne(file: Bytes, more: Bytes, entries: seq<Entry>)
    requires entries != [] && |file| == entries[0].size
    ensures ParseFiles(file + more, entries) ==
            match ParseFiles(more, entries[1..]) case None => None case Some(files) => Some([file] + files)
  {
    assert (file + more)[..|file|] == file && (file + more)[|file|..] == more;
  }

  lemma {:induction false} ParseFlat(files: seq<Bytes>, entries: seq<Entry>)
    requires Sized(files, entries)
    ensures ParseFiles(Flat(files), entries) == Some(files)
  {
    if files != [] {
      hide ParseFiles;
      ParseOne(files[0], Flat(files[1..]), entries);
      ParseFlat(files[1..], entries[1..]);
      assert files == [files[0]] + files[1..];
    }
  }

  lemma {:induction false} ParsedFlat(text: Bytes, entries: seq<Entry>)
    requires ParseFiles(text, entries).Some?
    ensures Sized(ParseFiles(text, entries).value, entries) && text == Flat(ParseFiles(text, entries).value)
  {
    if entries != [] {
      var size := entries[0].size;
      ParsedFlat(text[size..], entries[1..]);
      assert text == text[..size] + text[size..];
    }
  }

  /** What a pack made from these headers and files reads back as. */
  ghost predicate Packed(describe: Describe, p: Parsed) {
    && Fits(p.headers, LIMITS) && describe(p.headers) == Some(p.described)
    && Apart(Entries(p.described)) && Sized(p.files, Entries(p.described))
  }

  /** Reading recovers the headers and every file's contents from a frame. */
  lemma ParseFrame(describe: Describe, p: Parsed)
    requires Packed(describe, p)
    ensures Parse(describe, Frame(p.headers, p.files)) == Some(p)
  {
    hide ParseHeaders, ParseFiles, FrameHeaders, Flat, Entries, Fits, Sized, Apart;
    var text := Frame(p.headers, p.files);
    var framed := FrameHeaders(p.headers) + Flat(p.files);
    assert text == MAGIC + framed;
    Halved(MAGIC, framed);
    ParseFramedHeaders(p.headers, LIMITS, Flat(p.files));
    ParseFlat(p.files, Entries(p.described));
  }

  lemma Halved(a: Bytes, b: Bytes)
    ensures (a + b)[..|a|] == a && (a + b)[|a|..] == b
  {
  }

  /** And whatever is accepted is the frame of what was read, to the last byte. */
  lemma ParsedIsFrame(describe: Describe, text: Bytes)
    requires Parse(describe, text).Some?
    ensures var p := Parse(describe, text).value; Packed(describe, p) && text == Frame(p.headers, p.files)
  {
    hide ParseHeaders, ParseFiles, FrameHeaders, Flat, Entries, Fits, Sized, Apart;
    var p := Parse(describe, text).value;
    ParsedHeadersFrame(text[|MAGIC|..], LIMITS);
    ParsedFlat(ParseHeaders(text[|MAGIC|..], LIMITS).value.1, Entries(p.described));
    assert text == MAGIC + text[|MAGIC|..];
  }

  // ----- The inputs of a pack -----

  type Inputs = map<(string, string), Bytes>

  /** The input is there with the size its node records. */
  predicate Good(inputs: Inputs, e: Entry) {
    (e.tree, e.path) in inputs && |inputs[(e.tree, e.path)]| == e.size
  }

  predicate AllGood(inputs: Inputs, entries: seq<Entry>) {
    forall e :: e in entries ==> Good(inputs, e)
  }

  /** The contents of the entries up to the first bad one. */
  function Contents(inputs: Inputs, entries: seq<Entry>): seq<Bytes> {
    if entries == [] || !Good(inputs, entries[0]) then []
    else [inputs[(entries[0].tree, entries[0].path)]] + Contents(inputs, entries[1..])
  }

  lemma {:induction false} ContentsSized(inputs: Inputs, entries: seq<Entry>)
    requires AllGood(inputs, entries)
    ensures Sized(Contents(inputs, entries), entries)
    ensures forall i :: 0 <= i < |entries| ==> Good(inputs, entries[i])
    ensures forall i :: 0 <= i < |entries| ==> Contents(inputs, entries)[i] == inputs[(entries[i].tree, entries[i].path)]
  {
    if entries != [] {
      ContentsSized(inputs, entries[1..]);
    }
  }

  /** Contents of the entries, seen from the front. */
  lemma ContentsMore(inputs: Inputs, entries: seq<Entry>)
    requires entries != [] && Good(inputs, entries[0])
    ensures Flat(Contents(inputs, entries)) == inputs[(entries[0].tree, entries[0].path)] + Flat(Contents(inputs, entries[1..]))
    ensures AllGood(inputs, entries) <==> AllGood(inputs, entries[1..])
  {
  }

  /** The pieces of a frame before the files. */
  function Lead(headers: seq<Bytes>): seq<Bytes> {
    if headers == [] then [] else [LittleEndian(|headers[0]|, 8), headers[0]] + Lead(headers[1..])
  }

  lemma {:induction false} FlatLead(headers: seq<Bytes>)
    ensures Flat(Lead(headers)) == FrameHeaders(headers)
  {
    hide LittleEndian;
    if headers != [] {
      FlatLead(headers[1..]);
      var a, b, more := LittleEndian(|headers[0]|, 8), headers[0], Lead(headers[1..]);
      assert ([a, b] + more)[1..] == [b] + more && ([b] + more)[1..] == more;
      Regroup(a, b, Flat(more));
    }
  }

  /** What is left of the pieces from a place in the first. */
  ghost function LeadRest(lead: seq<Bytes>, start: nat): Bytes {
    if lead == [] then []
    else (if start < |lead[0]| then lead[0][start..] else []) + Flat(lead[1..])
  }

  lemma LeadCut(lead: seq<Bytes>, start: nat, end: nat)
    requires lead != [] && start < end <= |lead[0]| && (end == start + CHUNK || end == |lead[0]| <= start + CHUNK)
    ensures LeadRest(lead, start) == lead[0][start..end] + LeadRest(lead, start + CHUNK)
  {
  }

  lemma LeadDrop(lead: seq<Bytes>, start: nat)
    requires lead != [] && start >= |lead[0]|
    ensures LeadRest(lead, start) == LeadRest(lead[1..], 0)
  {
  }

  lemma LeadEnd()
    ensures LeadRest([], 0) == []
  {
  }

  /** A read of an open file: at least one byte and at most the amount, when there are any. */
  method ReadSome(data: Bytes, amount: nat) returns (part: Bytes, rest: Bytes)
    requires amount > 0
    ensures data == part + rest && |part| <= amount && (part == [] ==> data == [])
  {
    var n: nat := *;
    n := if data == [] then 0 else 1 + n % (if |data| < amount then |data| else amount);
    part, rest := data[..n], data[n..];
  }

  class RepresentationStream {
    const inputs: Inputs
    /** The generator: pieces not yet cut up, the place in the first of them, entries not yet done, the open file. */
    var lead: seq<Bytes>
    var start: nat
    var entries: seq<Entry>
    var reader: Option<Bytes>
    var remaining: nat
    var pending: Bytes

    ghost predicate Sound()
      reads `lead, `entries, `reader, `remaining
    {
      && (lead != [] ==> reader.None?)
      && (reader.Some? ==> entries != [] && Good(inputs, entries[0]) && remaining == |reader.value|)
    }

    /** What the generator has still to yield. */
    ghost function Coming(): Bytes
      requires Sound()
      reads `lead, `start, `entries, `reader, `remaining
    {
      if lead != [] then LeadRest(lead, start) + Flat(Contents(inputs, entries))
      else if reader.Some? then reader.value + Flat(Contents(inputs, entries[1..]))
      else Flat(Contents(inputs, entries))
    }

    ghost function Rest(): Bytes
      requires Sound()
      reads this
    {
      pending + Coming()
    }

    /** Some input is missing or has another size: the stream refuses when it gets there. */
    ghost predicate Broken()
      reads `entries
    {
      !AllGood(inputs, entries)
    }

    constructor (inputs: Inputs, headers: seq<Bytes>, described: Described)
      ensures Sound() && Broken() == !AllGood(inputs, Entries(described))
      ensures Rest() == Frame(headers, Contents(inputs, Entries(described)))
    {
      this.inputs := inputs;
      lead, start, entries := [MAGIC] + Lead(headers), 0, Entries(described);
      reader, remaining, pending := None, 0, [];
      new;
      FlatLead(headers);
      assert ([MAGIC] + Lead(headers))[1..] == Lead(headers);
    }

    /** The next piece; an empty one at the end. */
    method NextLead() returns (data: Bytes)
      requires Sound()
      modifies this
      ensures Sound() && pending == old(pending) && entries == old(entries)
      ensures old(Coming()) == data + Coming() && |data| <= CHUNK
      ensures data == [] ==> lead == []
    {
      hide Contents, Flat, LeadRest;
      while lead != []
        invariant Sound() && Coming() == old(Coming()) && pending == old(pending) && entries == old(entries)
        decreases |lead|
      {
        if start < |lead[0]| {
          var end := if start + CHUNK < |lead[0]| then start + CHUNK else |lead[0]|;
          data := lead[0][start..end];
          LeadCut(lead, start, end);
          Regroup(data, LeadRest(lead, start + CHUNK), Flat(Contents(inputs, entries)));
          start := start + CHUNK;
          return;
        }
        LeadDrop(lead, start);
        assert LeadRest([], 0) == [] by { LeadEnd(); }
        lead, start := lead[1..], 0;
      }
      data := [];
    }

    method NextFile() returns (data: Bytes, refused: bool)
      requires Sound() && lead == []
      modifies this
      ensures Sound() && pending == old(pending) && Broken() == old(Broken()) && lead == []
      ensures old(Coming()) == data + Coming() && |data| <= CHUNK
      ensures data == [] ==> Coming() == [] && refused == Broken()
      ensures data != [] ==> !refused
    {
      while true
        invariant Sound() && lead == [] && Coming() == old(Coming()) && pending == old(pending) && Broken() == old(Broken())
        decreases |entries|, reader.None?
      {
        if reader.Some? {
          if remaining > 0 {
            var rest;
            data, rest := ReadSome(reader.value, if remaining < CHUNK then remaining else CHUNK);
            Regroup(data, rest, Flat(Contents(inputs, entries[1..])));
            reader, remaining := Some(rest), remaining - |data|;
            return data, false;
          }
          ContentsMore(inputs, entries);
          reader, entries := None, entries[1..];
        } else if entries == [] {
          return [], false;
        } else if !Good(inputs, entries[0]) {
          return [], true;
        } else {
          ContentsMore(inputs, entries);
          reader := Some(inputs[(entries[0].tree, entries[0].path)]);
          remaining := entries[0].size;
        }
      }
    }

    method Next() returns (data: Bytes, refused: bool)
      requires Sound()
      modifies this
      ensures Sound() && pending == old(pending) && Broken() == old(Broken())
      ensures old(Coming()) == data + Coming() && |data| <= CHUNK
      ensures data == [] ==> Coming() == [] && refused == Broken()
      ensures data != [] ==> !refused
    {
      data := NextLead();
      refused := false;
      if data == [] {
        data, refused := NextFile();
      }
    }

    method Refill() returns (refused: bool)
      requires Sound()
      modifies this
      ensures Sound() && Broken() == old(Broken()) && Rest() == old(Rest())
      ensures pending == [] ==> Rest() == [] && refused == Broken()
    {
      hide Coming, Sound, Broken;
      refused := false;
      if pending == [] {
        ghost var coming := Coming();
        assert Rest() == coming;
        var data;
        data, refused := Next();
        pending := data;
      }
    }

    /** Exactly the bytes asked for, fewer only at the end of a stream whose inputs are all good. */
    method Read(amount: int) returns (r: Option<Bytes>)
      requires Sound()
      modifies this
      ensures Sound() && Broken() == old(Broken())
      ensures !(0 < amount <= CHUNK) ==> r.None? && Rest() == old(Rest())
      ensures 0 < amount <= CHUNK && |old(Rest())| >= amount ==> r.Some? && |r.value| == amount && old(Rest()) == r.value + Rest()
      ensures 0 < amount <= CHUNK && |old(Rest())| < amount ==>
                Rest() == [] && r == if Broken() then None else Some(old(Rest()))
    {
      hide Coming, Sound, Broken;
      if !(0 < amount <= CHUNK) {
        return None;
      }
      var result: Bytes := [];
      while |result| < amount
        invariant Sound() && Broken() == old(Broken()) && |result| <= amount && result + Rest() == old(Rest())
        decreases amount - |result|
      {
        var refused := Refill();
        if pending == [] {
          assert result + Rest() == result;
          return if refused then None else Some(result);
        }
        var take := if amount - |result| < |pending| then amount - |result| else |pending|;
        Shift(result, pending, Coming(), take);
        result, pending := result + pending[..take], pending[take..];
      }
      return Some(result);
    }
  }

  // ----- pack -----

  function Sizes(entries: seq<Entry>): nat {
    if entries == [] then 0 else entries[0].size + Sizes(entries[1..])
  }

  function HeaderSizes(headers: seq<Bytes>): nat {
    if headers == [] then 0 else 8 + |headers[0]| + HeaderSizes(headers[1..])
  }

  lemma {:induction false} HeadersSize(headers: seq<Bytes>)
    ensures |FrameHeaders(headers)| == HeaderSizes(headers)
  {
    hide LittleEndian;
    if headers != [] {
      HeadersSize(headers[1..]);
    }
  }

  lemma {:induction false} FlatSize(files: seq<Bytes>, entries: seq<Entry>)
    requires Sized(files, entries)
    ensures |Flat(files)| == Sizes(entries)
  {
    if files != [] {
      FlatSize(files[1..], entries[1..]);
    }
  }

  /** The whole of the data, however much each write takes. */
  method WriteAll(file: Bytes, data: Bytes) returns (after: Bytes)
    ensures after == file + data
  {
    after := file;
    var rest := data;
    while rest != []
      invariant after + rest == file + data
      decreases |rest|
    {
      var part, more := ReadSome(rest, CHUNK);
      Regroup(after, part, more);
      after, rest := after + part, more;
    }
  }

  method WriteFile(file: Bytes, data: Bytes) returns (after: Bytes)
    ensures after == file + data
  {
    after := file;
    var remaining, rest := |data|, data;
    while remaining > 0
      invariant after + rest == file + data && remaining == |rest|
    {
      var chunk, more := ReadSome(rest, if remaining < CHUNK then remaining else CHUNK);
      Regroup(after, chunk, more);
      after := WriteAll(after, chunk);
      rest, remaining := more, remaining - |chunk|;
    }
  }

  /** The file is the frame; refused exactly when an input is not as described or the frame is too long. */
  method Pack(inputs: Inputs, headers: seq<Bytes>, described: Described) returns (r: Option<Bytes>)
    ensures var entries := Entries(described);
            var frame := Frame(headers, Contents(inputs, entries));
            r == if AllGood(inputs, entries) && |frame| <= MAX_BUNDLE then Some(frame) else None
  {
    hide Entries, LittleEndian;
    var entries := Entries(described);
    var predicted := |MAGIC| + HeaderSizes(headers) + Sizes(entries);
    HeadersSize(headers);
    if AllGood(inputs, entries) {
      ContentsSized(inputs, entries);
      FlatSize(Contents(inputs, entries), entries);
    }
    if predicted > MAX_BUNDLE {
      return None;
    }
    var file := WriteAll([], MAGIC);
    for i := 0 to |headers|
      invariant file + FrameHeaders(headers[i..]) == MAGIC + FrameHeaders(headers)
    {
      FrameNext(headers, i);
      ghost var was := file;
      file := WriteAll(file, LittleEndian(|headers[i]|, 8));
      file := WriteAll(file, headers[i]);
      assert file + FrameHeaders(headers[i + 1..]) == was + (LittleEndian(|headers[i]|, 8) + headers[i] + FrameHeaders(headers[i + 1..]));
    }
    assert headers[|headers|..] == [] && file == MAGIC + FrameHeaders(headers);
    r := PackFiles(inputs, entries, file);
    assert r.Some? ==> |r.value| == predicted;
  }

  method PackFiles(inputs: Inputs, entries: seq<Entry>, file: Bytes) returns (r: Option<Bytes>)
    ensures r == if AllGood(inputs, entries) then Some(file + Flat(Contents(inputs, entries))) else None
  {
    var after := file;
    assert entries[0..] == entries;
    for i := 0 to |entries|
      invariant AllGood(inputs, entries) <==> AllGood(inputs, entries[i..])
      invariant after + Flat(Contents(inputs, entries[i..])) == file + Flat(Contents(inputs, entries))
    {
      if !Good(inputs, entries[i]) {
        assert entries[i] in entries;
        return None;
      }
      assert entries[i..][0] == entries[i] && entries[i..][1..] == entries[i + 1..];
      ContentsMore(inputs, entries[i..]);
      var data := inputs[(entries[i].tree, entries[i].path)];
      Regroup(after, data, Flat(Contents(inputs, entries[i + 1..])));
      after := WriteFile(after, data);
    }
    assert after + [] == after;
    return Some(after);
  }

  lemma FrameNext(headers: seq<Bytes>, i: nat)
    requires i < |headers|
    ensures FrameHeaders(headers[i..]) == LittleEndian(|headers[i]|, 8) + headers[i] + FrameHeaders(headers[i + 1..])
  {
  }

  // ----- materialize -----

  /** What is read back: an open file, which may give fewer bytes than asked, or a representation stream. */
  class Source {
    const stream: RepresentationStream?
    var file: Bytes

    ghost predicate Sound()
      reads this, stream
    {
      stream != null ==> stream.Sound()
    }

    ghost function Rest(): Bytes
      requires Sound()
      reads this, stream
    {
      if stream == null then file else stream.Rest()
    }

    ghost predicate Broken()
      reads this, stream
    {
      stream != null && stream.Broken()
    }

    constructor File(data: Bytes)
      ensures Sound() && Rest() == data && !Broken() && stream == null
    {
      stream, file := null, data;
    }

    constructor Representation(s: RepresentationStream)
      requires s.Sound()
      ensures Sound() && stream == s && Rest() == s.Rest() && Broken() == s.Broken()
    {
      stream, file := s, [];
    }

    method Read(amount: nat) returns (r: Option<Bytes>)
      requires Sound() && 0 < amount <= CHUNK
      modifies this, stream
      ensures Sound() && Broken() == old(Broken())
      ensures r.Some? ==> old(Rest()) == r.value + Rest() && |r.value| <= amount
      ensures r.Some? && r.value == [] ==> old(Rest()) == [] && !Broken()
      ensures r.None? ==> Broken() && |old(Rest())| < amount
    {
      if stream == null {
        var part, rest := ReadSome(file, amount);
        file := rest;
        r := Some(part);
      } else {
        r := stream.Read(amount);
        assert r.Some? && |r.value| < amount ==> r.value + [] == r.value;
      }
    }

    /** All of the bytes asked for, or a refusal when there are not so many. */
    method Exact(count: nat) returns (r: Option<Bytes>)
      requires Sound()
      modifies this, stream
      ensures Sound() && Broken() == old(Broken())
      ensures r.Some? <==> count <= |old(Rest())|
      ensures r.Some? ==> r.value == old(Rest())[..count] && Rest() == old(Rest())[count..]
    {
      var parts: Bytes := [];
      var remaining: nat := count;
      while remaining > 0
        invariant Sound() && Broken() == old(Broken())
        invariant parts + Rest() == old(Rest()) && |parts| + remaining == count
      {
        var part := Read(if remaining < CHUNK then remaining else CHUNK);
        if part.None? || part.value == [] {
          return None;
        }
        Regroup(parts, part.value, Rest());
        parts, remaining := parts + part.value, remaining - |part.value|;
      }
      assert (parts + Rest())[..count] == parts && (parts + Rest())[count..] == Rest();
      return Some(parts);
    }
  }

  method ReadHeaders(source: Source) returns (r: Option<seq<Bytes>>)
    requires source.Sound()
    modifies source, source.stream
    ensures source.Sound() && source.Broken() == old(source.Broken())
    ensures match ParseHeaders(old(source.Rest()), LIMITS)
            case None => r.None?
            case Some(h) => r == Some(h.0) && source.Rest() == h.1
  {
    hide Value, Source.Rest, Source.Sound, Source.Broken;
    var metadata: seq<Bytes> := [];
    ghost var whole := source.Rest();
    assert LIMITS[0..] == LIMITS;
    AfterMore([], [], ParseHeaders(whole, LIMITS));
    for i := 0 to |LIMITS|
      invariant source.Sound() && source.Broken() == old(source.Broken())
      invariant ParseHeaders(whole, LIMITS) == After(metadata, ParseHeaders(source.Rest(), LIMITS[i..]))
    {
      ghost var rest := source.Rest();
      assert LIMITS[i..][0] == LIMITS[i] && LIMITS[i..][1..] == LIMITS[i + 1..];
      var length := source.Exact(8);
      if length.None? {
        return None;
      }
      var n := Value(length.value);
      if !(0 < n <= LIMITS[i]) {
        return None;
      }
      var header := source.Exact(n);
      if header.None? {
        return None;
      }
      assert header.value == rest[8..8 + n] && source.Rest() == rest[8 + n..];
      ParseStep(rest, LIMITS[i..]);
      AfterMore(metadata, header.value, ParseHeaders(source.Rest(), LIMITS[i + 1..]));
      metadata := metadata + [header.value];
    }
    AfterMore(metadata, [], Some(([], source.Rest())));
    return Some(metadata);
  }

  type Tree = map<(string, string), Bytes>

  /** The tree that holds these files and nothing else. */
  ghost predicate Holds(tree: Tree, entries: seq<Entry>, files: seq<Bytes>)
    requires |files| == |entries|
  {
    && tree.Keys == (set e | e in entries :: (e.tree, e.path))
    && forall i :: 0 <= i < |entries| ==> (entries[i].tree, entries[i].path) in tree && tree[(entries[i].tree, entries[i].path)] == files[i]
  }

  /** One file, in blocks. */
  method ReadFile(source: Source, size: nat) returns (r: Option<Bytes>)
    requires source.Sound()
    modifies source, source.stream
    ensures source.Sound() && source.Broken() == old(source.Broken())
    ensures r.Some? <==> size <= |old(source.Rest())|
    ensures r.Some? ==> r.value == old(source.Rest())[..size] && source.Rest() == old(source.Rest())[size..]
  {
    hide Source.Rest, Source.Sound, Source.Broken;
    var file: Bytes := [];
    var remaining: nat := size;
    ghost var whole := source.Rest();
    assert whole[..0] == [] && whole[0..] == whole;
    while remaining > 0
      invariant source.Sound() && source.Broken() == old(source.Broken())
      invariant |file| + remaining == size && |file| <= |whole| && file == whole[..|file|] && source.Rest() == whole[|file|..]
    {
      var data := source.Exact(if remaining < CHUNK then remaining else CHUNK);
      if data.None? {
        return None;
      }
      Further(whole, |file|, |data.value|);
      file := WriteAll(file, data.value);
      remaining := remaining - |data.value|;
    }
    return Some(file);
  }

  lemma Further(whole: Bytes, m: nat, n: nat)
    requires m + n <= |whole|
    ensures whole[..m] + whole[m..][..n] == whole[..m + n] && whole[m..][n..] == whole[m + n..]
  {
  }

  lemma HoldsMore(tree: Tree, entries: seq<Entry>, files: seq<Bytes>, e: Entry, file: Bytes)
    requires |files| == |entries| && Holds(tree, entries, files) && (e.tree, e.path) !in tree
    ensures Holds(tree[(e.tree, e.path) := file], entries + [e], files + [file])
  {
  }

  /** Every file in its place, or a refusal: short, trailing bytes, a name twice. */
  method ReadFiles(source: Source, entries: seq<Entry>) returns (r: Option<Tree>)
    requires source.Sound()
    modifies source, source.stream
    ensures var files := ParseFiles(old(source.Rest()), entries);
            if old(source.Broken()) || files.None? || !Apart(entries) then r.None?
            else r.Some? && |files.value| == |entries| && Holds(r.value, entries, files.value)
  {
    hide Holds, Source.Rest, Source.Sound, Source.Broken;
    var tree: Tree := map[];
    ghost var done: seq<Bytes> := [];
    ghost var whole := source.Rest();
    assert entries[0..] == entries && Holds(tree, entries[..0], done) by { HoldsNone(); }
    AfterFilesMore([], [], ParseFiles(whole, entries));
    for i := 0 to |entries|
      invariant source.Sound() && source.Broken() == old(source.Broken())
      invariant ParseFiles(whole, entries) == AfterFiles(done, ParseFiles(source.Rest(), entries[i..]))
      invariant |done| == i && Holds(tree, entries[..i], done) && Apart(entries[..i])
    {
      var e := entries[i];
      assert entries[i..][0] == e && entries[i..][1..] == entries[i + 1..] && entries[..i + 1] == entries[..i] + [e];
      if (e.tree, e.path) in tree {
        TwiceInTree(tree, entries, done, i);
        return None;
      }
      var file := ReadFile(source, e.size);
      if file.None? {
        return None;
      }
      AfterFilesMore(done, file.value, ParseFiles(source.Rest(), entries[i + 1..]));
      HoldsMore(tree, entries[..i], done, e, file.value);
      StillApart(tree, entries, done, i);
      tree, done := tree[(e.tree, e.path) := file.value], done + [file.value];
    }
    assert entries[..|entries|] == entries && entries[|entries|..] == [];
    var trailing := source.Read(1);
    if trailing.None? || trailing.value != [] {
      return None;
    }
    assert done + [] == done;
    return Some(tree);
  }

  lemma HoldsNone()
    ensures Holds(map[], [], [])
  {
  }

  lemma TwiceInTree(tree: Tree, entries: seq<Entry>, done: seq<Bytes>, i: nat)
    requires i < |entries| && |done| == i && Holds(tree, entries[..i], done) && (entries[i].tree, entries[i].path) in tree
    ensures !Apart(entries)
  {
  }

  lemma StillApart(tree: Tree, entries: seq<Entry>, done: seq<Bytes>, i: nat)
    requires i < |entries| && |done| == i && Holds(tree, entries[..i], done) && (entries[i].tree, entries[i].path) !in tree
    requires Apart(entries[..i])
    ensures Apart(entries[..i + 1])
  {
  }

  /** Reading through any source gives what the plain reading of its bytes gives, laid out as a tree. */
  method Materialize(describe: Describe, source: Source) returns (r: Option<(seq<Bytes>, Tree)>)
    requires source.Sound()
    modifies source, source.stream
    ensures var p := Parse(describe, old(source.Rest()));
            if old(source.Broken()) || p.None? then r.None?
            else
              && r.Some? && r.value.0 == p.value.headers
              && |p.value.files| == |Entries(p.value.described)|
              && Holds(r.value.1, Entries(p.value.described), p.value.files)
  {
    hide Holds, Entries, ParseHeaders, ParseFiles, Apart;
    var magic := source.Exact(|MAGIC|);
    if magic.None? || magic.value != MAGIC {
      return None;
    }
    var metadata := ReadHeaders(source);
    if metadata.None? {
      return None;
    }
    match describe(metadata.value)
    case None => return None;
    case Some(d) =>
      var tree := ReadFiles(source, Entries(d));
      if tree.None? {
        return None;
      }
      return Some((metadata.value, tree.value));
  }

  /** The tree made of the inputs that the entries name. */
  ghost predicate Restores(tree: Tree, inputs: Inputs, entries: seq<Entry>) {
    && tree.Keys == (set e | e in entries :: (e.tree, e.path))
    && forall k :: k in tree ==> k in inputs && tree[k] == inputs[k]
  }

  lemma HoldsRestores(tree: Tree, inputs: Inputs, entries: seq<Entry>)
    requires AllGood(inputs, entries)
    requires |Contents(inputs, entries)| == |entries| && Holds(tree, entries, Contents(inputs, entries))
    ensures Restores(tree, inputs, entries)
  {
    ContentsSized(inputs, entries);
    forall k | k in tree ensures k in inputs && tree[k] == inputs[k] {
      var e :| e in entries && (e.tree, e.path) == k;
      var i :| 0 <= i < |entries| && entries[i] == e;
    }
  }

  /** Streaming the inputs straight into a materialization restores the headers and every file. */
  method Reconstruct(describe: Describe, inputs: Inputs, headers: seq<Bytes>, described: Described)
    returns (r: Option<(seq<Bytes>, Tree)>)
    ensures Fits(headers, LIMITS) && describe(headers) == Some(described) && Apart(Entries(described)) ==>
              if AllGood(inputs, Entries(described))
              then r.Some? && r.value.0 == headers && Restores(r.value.1, inputs, Entries(described))
              else r.None?
  {
    hide Holds, Restores, Entries, Fits, Apart, Frame, Parse;
    var stream := new RepresentationStream(inputs, headers, described);
    var source := new Source.Representation(stream);
    if Fits(headers, LIMITS) && describe(headers) == Some(described) && Apart(Entries(described)) && AllGood(inputs, Entries(described)) {
      ContentsSized(inputs, Entries(described));
      ParseFrame(describe, Parsed(headers, described, Contents(inputs, Entries(described))));
    }
    r := Materialize(describe, source);
    if AllGood(inputs, Entries(described)) && r.Some? && |Contents(inputs, Entries(described))| == |Entries(described)|
       && Holds(r.value.1, Entries(described), Contents(inputs, Entries(described))) {
      HoldsRestores(r.value.1, inputs, Entries(described));
    }
  }

  /** So does writing the file and reading it back, in reads of any size. */
  method PackThenMaterialize(describe: Describe, inputs: Inputs, headers: seq<Bytes>, described: Described)
    returns (r: Option<(seq<Bytes>, Tree)>)
    requires AllGood(inputs, Entries(described)) && |Frame(headers, Contents(inputs, Entries(described)))| <= MAX_BUNDLE
    requires Fits(headers, LIMITS) && describe(headers) == Some(described) && Apart(Entries(described))
    ensures r.Some? && r.value.0 == headers && Restores(r.value.1, inputs, Entries(described))
  {
    hide Holds, Restores, Entries, Fits, Apart, Frame, Parse;
    var file := Pack(inputs, headers, described);
    ContentsSized(inputs, Entries(described));
    ParseFrame(describe, Parsed(headers, described, Contents(inputs, Entries(described))));
    var source := new Source.File(file.value);
    r := Materialize(describe, source);
    HoldsRestores(r.value.1, inputs, Entries(described));
  }
}
