/**
  The streaming reader of /proc status text and the census records of
  delivery/native_thread_census.py.  Bytes are characters.

  `Projection` consumes one byte at a time and keeps almost nothing.  `ReadAll` is the plain
  reading it must agree with: cut the text into lines, take what follows the first colon of
  each line that starts with a wanted key, refuse a repeated key or an overlong wanted line.
*/
module ThreadCensus {

  import opened Basics

  const MAX_STATUS: nat := 16 * 1024
  const MAX_LINE: nat := 256
  const MAX_THREADS: nat := 65536

  const KEYS: set<string> := {"Pid", "PPid", "Uid", "NSpid", "Threads"}

  datatype Reason = Shape | Bound | Profile

  datatype Result<+T> = Ok(value: T) | Err(reason: Reason)

  // ----- The plain reading -----

  predicate Blank(c: char) { c == ' ' || c == '\t' }

  function StripLeft(s: string): string {
    if s != [] && Blank(s[0]) then StripLeft(s[1..]) else s
  }

  function StripRight(s: string): string {
    if s != [] && Blank(s[|s| - 1]) then StripRight(s[..|s| - 1]) else s
  }

  function Strip(s: string): string { StripRight(StripLeft(s)) }

  /** Position of the first colon, or the length of the line. */
  function Colon(line: string): (i: nat)
    ensures i <= |line| && (i < |line| ==> line[i] == ':') && forall j :: 0 <= j < i ==> line[j] != ':'
  {
    if line == [] || line[0] == ':' then 0 else 1 + Colon(line[1..])
  }

  /** The line names a wanted key. */
  predicate Wanted(keys: set<string>, line: string) {
    Colon(line) < |line| && line[..Colon(line)] in keys
  }

  /** A complete line. */
  function ReadLine(keys: set<string>, fields: map<string, string>, line: string): Result<map<string, string>> {
    if !Wanted(keys, line) then Ok(fields)
    else if |line| > MAX_LINE then Err(Bound)
    else
      var key := line[..Colon(line)];
      if key in fields then Err(Shape) else Ok(fields[key := Strip(line[Colon(line) + 1..])])
  }

  /** Position of the first line end, or the length of the text. */
  function LineEnd(text: string): (i: nat)
    ensures i <= |text| && (i < |text| ==> text[i] == '\n') && forall j :: 0 <= j < i ==> text[j] != '\n'
  {
    if text == [] || text[0] == '\n' then 0 else 1 + LineEnd(text[1..])
  }

  /** The whole text; a last line without line end only has to be short enough. */
  function ReadAll(keys: set<string>, fields: map<string, string>, text: string): Result<map<string, string>>
    decreases |text|
  {
    var end := LineEnd(text);
    if end == |text| then
      if Wanted(keys, text) && |text| > MAX_LINE then Err(Bound) else Ok(fields)
    else
      match ReadLine(keys, fields, text[..end])
      case Err(reason) => Err(reason)
      case Ok(more) => ReadAll(keys, more, text[end + 1..])
  }

  // ----- The machine -----

  datatype State = State(fields: map<string, string>, prefix: string, value: string, key: Option<string>, unknown: bool)

  const Fresh: State := State(map[], "", "", None, false)

  /** One turn of the loop in Projection.feed. */
  function ByteStep(keys: set<string>, s: State, byte: char): Result<State> {
    if byte == '\n' then
      if s.key.Some? && s.key.value in s.fields then Err(Shape)
      else
        Ok(State(if s.key.Some? then s.fields[s.key.value := Strip(s.value)] else s.fields, "", "", None, false))
    else if s.key.Some? then
      if |s.value| >= MAX_LINE - |s.key.value| - 1 then Err(Bound) else Ok(s.(value := s.value + [byte]))
    else if s.unknown then Ok(s)
    else if byte == ':' then
      var known := s.prefix in keys;
      Ok(s.(key := if known then Some(s.prefix) else None, unknown := !known, prefix := ""))
    else if |s.prefix| < 8 then Ok(s.(prefix := s.prefix + [byte]))
    else Ok(s.(unknown := true, prefix := ""))
  }

  function Steps(keys: set<string>, s: State, text: string): Result<State>
    decreases |text|
  {
    if text == [] then Ok(s)
    else
      match ByteStep(keys, s, text[0])
      case Err(reason) => Err(reason)
      case Ok(next) => Steps(keys, next, text[1..])
  }

  /** Reading on from where a first piece left off. */
  lemma {:induction false} StepsAppend(keys: set<string>, s: State, a: string, b: string)
    ensures Steps(keys, s, a + b) ==
            match Steps(keys, s, a) case Err(reason) => Err(reason) case Ok(next) => Steps(keys, next, b)
    decreases |a|
  {
    if a == [] {
      assert a + b == b;
    } else {
      assert (a + b)[1..] == a[1..] + b;
      match ByteStep(keys, s, a[0])
      case Err(_) =>
      case Ok(next) => StepsAppend(keys, next, a[1..], b);
    }
  }

  ghost predicate KeysOk(keys: set<string>) {
    forall k :: k in keys ==> 0 < |k| <= 7 && ':' !in k && '\n' !in k
  }

  /** What the machine remembers of the line it is in. */
  function LineState(keys: set<string>, fields: map<string, string>, line: string): State {
    var i := Colon(line);
    if Wanted(keys, line) then State(fields, "", line[i + 1..], Some(line[..i]), false)
    else if i < |line| || |line| > 8 then State(fields, "", "", None, true)
    else State(fields, line, "", None, false)
  }

  lemma {:induction false} ColonAppend(line: string, byte: char)
    ensures Colon(line + [byte]) == if Colon(line) < |line| || byte == ':' then Colon(line) else |line| + 1
  {
    if line != [] {
      assert (line + [byte])[1..] == line[1..] + [byte];
      ColonAppend(line[1..], byte);
    }
  }

  /** One more byte of a line: the memory follows, and an overlong wanted line is refused there and then. */
  lemma LineStep(keys: set<string>, fields: map<string, string>, line: string, byte: char)
    requires KeysOk(keys) && byte != '\n' && (Wanted(keys, line) ==> |line| <= MAX_LINE)
    ensures ByteStep(keys, LineState(keys, fields, line), byte) ==
            if Wanted(keys, line + [byte]) && |line + [byte]| > MAX_LINE then Err(Bound)
            else Ok(LineState(keys, fields, line + [byte]))
  {
    var i := Colon(line);
    var more := line + [byte];
    ColonAppend(line, byte);
    if i < |line| {
      assert more[..i] == line[..i] && more[i + 1..] == line[i + 1..] + [byte];
    } else {
      assert line[..i] == line && more[..|line|] == line && more[|line| + 1..] == "";
    }
  }

  /** The end of a line stores its field. */
  lemma {:induction false} LineFinish(keys: set<string>, fields: map<string, string>, line: string)
    requires KeysOk(keys) && (Wanted(keys, line) ==> |line| <= MAX_LINE)
    ensures ByteStep(keys, LineState(keys, fields, line), '\n') ==
            match ReadLine(keys, fields, line)
            case Err(reason) => Err(reason)
            case Ok(more) => Ok(LineState(keys, more, ""))
  {
  }

  /** The machine, started inside a line, against the plain reading of that line and the rest. */
  lemma {:induction false} StepsRead(keys: set<string>, fields: map<string, string>, line: string, text: string)
    requires KeysOk(keys) && '\n' !in line && (Wanted(keys, line) ==> |line| <= MAX_LINE)
    ensures var machine := Steps(keys, LineState(keys, fields, line), text);
            var plain := ReadAll(keys, fields, line + text);
            match plain
            case Err(reason) => machine == Err(reason)
            case Ok(all) => machine.Ok? && machine.value.fields == all
    decreases |text|
  {
    hide ReadLine, ReadAll, ByteStep, Wanted, LineState, KeysOk;
    if text == [] {
      assert line + text == line;
      assert LineState(keys, fields, line).fields == fields && ReadAll(keys, fields, line) == Ok(fields) by {
        LastLine(keys, fields, line);
      }
    } else if text[0] == '\n' {
      LineFinish(keys, fields, line);
      ReadAllLine(keys, fields, line, text[1..]);
      assert line + "\n" + text[1..] == line + text;
      match ReadLine(keys, fields, line)
      case Err(_) =>
      case Ok(more) =>
        StepsRead(keys, more, "", text[1..]);
        assert "" + text[1..] == text[1..];
    } else {
      LineStep(keys, fields, line, text[0]);
      var more := line + [text[0]];
      assert more + text[1..] == line + text;
      if Wanted(keys, more) && |more| > MAX_LINE {
        Overlong(keys, fields, more, text[1..]);
      } else {
        StepsRead(keys, fields, more, text[1..]);
      }
    }
  }

  lemma {:induction false} LastLine(keys: set<string>, fields: map<string, string>, line: string)
    requires '\n' !in line && (Wanted(keys, line) ==> |line| <= MAX_LINE)
    ensures LineState(keys, fields, line).fields == fields && ReadAll(keys, fields, line) == Ok(fields)
  {
  }

  lemma {:induction false} LineEndAt(line: string, text: string)
    requires '\n' !in line && (text == [] || text[0] == '\n')
    ensures LineEnd(line + text) == |line|
  {
    if line != [] {
      LineEndAt(line[1..], text);
      assert (line + text)[1..] == line[1..] + text;
    } else {
      assert line + text == text;
    }
  }

  /** A wanted line that is already too long stays refused whatever follows. */
  lemma {:induction false} Overlong(keys: set<string>, fields: map<string, string>, line: string, text: string)
    requires '\n' !in line && Wanted(keys, line) && |line| > MAX_LINE
    ensures ReadAll(keys, fields, line + text) == Err(Bound)
    decreases |text|
  {
    if text == [] || text[0] == '\n' {
      LineEndAt(line, text);
      assert text == [] ==> line + text == line;
      assert (line + text)[..|line|] == line;
    } else {
      ColonAppend(line, text[0]);
      assert (line + [text[0]])[..Colon(line)] == line[..Colon(line)];
      Overlong(keys, fields, line + [text[0]], text[1..]);
      assert line + [text[0]] + text[1..] == line + text;
    }
  }

  // ----- Chunks -----

  function Concat(chunks: seq<string>): string {
    if chunks == [] then "" else chunks[0] + Concat(chunks[1..])
  }

  /** Projection.feed on one chunk after another: the size test comes before the bytes of the chunk. */
  function FeedAll(keys: set<string>, s: State, total: nat, chunks: seq<string>): Result<State>
    decreases |chunks|
  {
    if chunks == [] then Ok(s)
    else if total + |chunks[0]| > MAX_STATUS then Err(Bound)
    else
      match Steps(keys, s, chunks[0])
      case Err(reason) => Err(reason)
      case Ok(next) => FeedAll(keys, next, total + |chunks[0]|, chunks[1..])
  }

  lemma {:induction false} FeedAllSteps(keys: set<string>, s: State, total: nat, chunks: seq<string>)
    requires total <= MAX_STATUS
    ensures total + |Concat(chunks)| <= MAX_STATUS ==> FeedAll(keys, s, total, chunks) == Steps(keys, s, Concat(chunks))
    ensures total + |Concat(chunks)| > MAX_STATUS ==> FeedAll(keys, s, total, chunks).Err?
    decreases |chunks|
  {
    if chunks != [] && total + |chunks[0]| <= MAX_STATUS {
      StepsAppend(keys, s, chunks[0], Concat(chunks[1..]));
      match Steps(keys, s, chunks[0])
      case Err(_) =>
      case Ok(next) => FeedAllSteps(keys, next, total + |chunks[0]|, chunks[1..]);
    }
  }

  /**
    However the text is cut, acceptance and fields are those of the plain reading of the whole text,
    and so is the reason for refusing a text within the size bound.
  */
  lemma ChunksRead(keys: set<string>, chunks: seq<string>)
    requires KeysOk(keys)
    ensures var text := Concat(chunks);
            var fed, plain := FeedAll(keys, Fresh, 0, chunks), ReadAll(keys, map[], text);
            && (fed.Ok? <==> |text| <= MAX_STATUS && plain.Ok?)
            && (fed.Ok? ==> fed.value.fields == plain.value)
            && (fed.Err? && |text| <= MAX_STATUS ==> plain == Err(fed.reason))
  {
    var text := Concat(chunks);
    FeedAllSteps(keys, Fresh, 0, chunks);
    StepsRead(keys, map[], "", text);
    assert "" + text == text;
  }

  /** A text above the size bound: the size test comes first, or the machine stopped within the bound. */
  lemma {:induction false} FeedTooLong(keys: set<string>, s: State, total: nat, chunks: seq<string>)
    requires total <= MAX_STATUS < total + |Concat(chunks)|
    ensures var fed := FeedAll(keys, s, total, chunks);
            fed == Err(Bound) || (fed.Err? && fed == Steps(keys, s, Concat(chunks)[..MAX_STATUS - total]))
    decreases |chunks|
  {
    if total + |chunks[0]| <= MAX_STATUS {
      var rest, bound := Concat(chunks[1..]), MAX_STATUS - total - |chunks[0]|;
      assert Concat(chunks)[..MAX_STATUS - total] == chunks[0] + rest[..bound];
      StepsAppend(keys, s, chunks[0], rest[..bound]);
      match Steps(keys, s, chunks[0])
      case Err(_) =>
      case Ok(next) => FeedTooLong(keys, next, total + |chunks[0]|, chunks[1..]);
    }
  }

  /** However the text is cut, the outcome has the same reason. */
  ghost predicate SameReason(keys: set<string>, text: string) {
    forall a, b :: Concat(a) == text && Concat(b) == text ==>
      var x, y := FeedAll(keys, Fresh, 0, a), FeedAll(keys, Fresh, 0, b);
      (x.Err? <==> y.Err?) && (x.Err? ==> x.reason == y.reason)
  }

  /**
    The reason is the same for every cut if and only if the text is within the size bound or the
    plain reading of its part within the bound is not refused for its shape.
  */
  lemma ReasonOfCut(keys: set<string>, text: string)
    requires KeysOk(keys)
    ensures SameReason(keys, text) <==> |text| <= MAX_STATUS || ReadAll(keys, map[], text[..MAX_STATUS]) != Err(Shape)
  {
    hide FeedAll, Steps, ReadAll, Concat, KeysOk;
    if |text| <= MAX_STATUS {
      forall a | Concat(a) == text ensures FeedAll(keys, Fresh, 0, a) == Steps(keys, Fresh, text) {
        FeedAllSteps(keys, Fresh, 0, a);
      }
    } else {
      var part := text[..MAX_STATUS];
      StepsRead(keys, map[], "", part);
      assert "" + part == part;
      assert LineState(keys, map[], "") == Fresh;
      NoProfile(keys, map[], part);
      if ReadAll(keys, map[], part) == Err(Shape) {
        TwoCuts(keys, text);
      } else {
        forall a | Concat(a) == text ensures FeedAll(keys, Fresh, 0, a) == Err(Bound) {
          FeedTooLong(keys, Fresh, 0, a);
        }
      }
    }
  }

  /** In one piece the size test is met first, cut at the bound the machine is. */
  lemma TwoCuts(keys: set<string>, text: string)
    requires |text| > MAX_STATUS && Steps(keys, Fresh, text[..MAX_STATUS]) == Err(Shape)
    ensures !SameReason(keys, text)
  {
    hide Steps;
    var a, b := [text], [text[..MAX_STATUS], text[MAX_STATUS..]];
    assert a[1..] == [] && b[1..] == [text[MAX_STATUS..]] && b[1..][1..] == [];
    assert Concat(a) == text && Concat(b) == text;
    assert FeedAll(keys, Fresh, 0, a) == Err(Bound) && FeedAll(keys, Fresh, 0, b) == Err(Shape);
  }

  /** Such a text: a key twice and then too much. */
  lemma ReasonDependsOnCut()
    ensures exists text :: !SameReason(KEYS, text)
  {
    var twice := "Pid:\nPid:\n";
    var filler: string := seq(MAX_STATUS, _ => 'x');
    var text := twice + filler;
    RepeatedKey(twice);
    var part := text[..MAX_STATUS];
    assert part == twice + part[10..];
    StepsAppend(KEYS, Fresh, twice, part[10..]);
    TwoCuts(KEYS, text);
  }

  /** The plain reading takes a text line by line. */
  lemma {:induction false} ReadAllLine(keys: set<string>, fields: map<string, string>, line: string, rest: string)
    requires '\n' !in line
    ensures ReadAll(keys, fields, line + "\n" + rest) ==
            match ReadLine(keys, fields, line)
            case Err(reason) => Err(reason)
            case Ok(more) => ReadAll(keys, more, rest)
  {
    var text := line + "\n" + rest;
    LineEndAt(line, "\n" + rest);
    assert text == line + ("\n" + rest);
    assert text[..|line|] == line && text[|line| + 1..] == rest;
  }

  lemma {:induction false} RepeatedLine(keys: set<string>, line: string)
    requires '\n' !in line && Wanted(keys, line) && |line| <= MAX_LINE
    ensures ReadAll(keys, map[], line + "\n" + (line + "\n" + "")) == Err(Shape)
  {
    hide ReadAll;
    var none: map<string, string> := map[];
    ReadAllLine(keys, none, line, line + "\n" + "");
    ReadAllLine(keys, none[line[..Colon(line)] := Strip(line[Colon(line) + 1..])], line, "");
  }

  lemma {:induction false} RepeatedKey(twice: string)
    requires twice == "Pid:\nPid:\n"
    ensures Steps(KEYS, Fresh, twice) == Err(Shape)
  {
    hide Steps, ReadAll, ReadLine;
    PidIsWanted();
    RepeatedLine(KEYS, "Pid:");
    assert "Pid:" + "\n" + ("Pid:" + "\n" + "") == twice && "" + twice == twice;
    StepsRead(KEYS, map[], "", twice);
  }

  lemma PidIsWanted()
    ensures KeysOk(KEYS) && Wanted(KEYS, "Pid:")
  {
    ColonAt("Pid", "");
    assert "Pid" + ":" + "" == "Pid:" && "Pid:"[..3] == "Pid";
  }

  lemma {:induction false} ColonAt(key: string, rest: string)
    requires ':' !in key
    ensures Colon(key + ":" + rest) == |key|
  {
    if key != [] {
      ColonAt(key[1..], rest);
      assert (key + ":" + rest)[1..] == key[1..] + ":" + rest;
    }
  }

  class Projection {
    const keys: set<string>
    var fields: map<string, string>
    var prefix: string
    var value: string
    var key: Option<string>
    var unknown: bool
    var total: nat
    var terminated: bool

    ghost function Now(): State
      reads this
    {
      State(fields, prefix, value, key, unknown)
    }

    constructor (sampleThreads: bool)
      ensures keys == (if sampleThreads then KEYS else KEYS - {"Threads"})
      ensures Now() == Fresh && total == 0 && terminated
    {
      keys := if sampleThreads then KEYS else KEYS - {"Threads"};
      fields, prefix, value, key, unknown, total, terminated := map[], "", "", None, false, 0, true;
    }

    method Feed(chunk: string) returns (r: Result<()>)
      modifies this
      ensures total == old(total) + |chunk|
      ensures total > MAX_STATUS ==> r == Err(Bound) && Now() == old(Now())
      ensures total <= MAX_STATUS ==>
                match Steps(keys, old(Now()), chunk)
                case Err(reason) => r == Err(reason)
                case Ok(next) => r.Ok? && Now() == next
      ensures r.Ok? ==> terminated == if chunk == [] then old(terminated) else chunk[|chunk| - 1] == '\n'
    {
      total := total + |chunk|;
      if total > MAX_STATUS {
        return Err(Bound);
      }
      for n := 0 to |chunk|
        invariant Steps(keys, old(Now()), chunk) == Steps(keys, Now(), chunk[n..])
        invariant terminated == if n == 0 then old(terminated) else chunk[n - 1] == '\n'
        invariant total == old(total) + |chunk|
      {
        var byte := chunk[n];
        assert chunk[n..][0] == byte && chunk[n..][1..] == chunk[n + 1..];
        terminated := byte == '\n';
        if byte == '\n' {
          if key.Some? {
            if key.value in fields {
              return Err(Shape);
            }
            fields := fields[key.value := Strip(value)];
          }
          prefix, value, key, unknown := "", "", None, false;
        } else if key.Some? {
          if |value| >= MAX_LINE - |key.value| - 1 {
            return Err(Bound);
          }
          value := value + [byte];
        } else if !unknown {
          if byte == ':' {
            key := if prefix in keys then Some(prefix) else None;
            unknown := key.None?;
            prefix := "";
          } else if |prefix| < 8 {
            prefix := prefix + [byte];
          } else {
            unknown, prefix := true, "";
          }
        }
      }
      return Ok(());
    }
  }

  // ----- Numbers -----

  predicate Digit(c: char) { '0' <= c <= '9' }

  function Decimal(s: string): nat
    requires forall i :: 0 <= i < |s| ==> Digit(s[i])
  {
    if s == [] then 0
    else
      assert Digit(s[|s| - 1]);
      10 * Decimal(s[..|s| - 1]) + (s[|s| - 1] as int - '0' as int)
  }

  function Digits(n: nat): string {
    if n < 10 then [('0' as int + n) as char] else Digits(n / 10) + [('0' as int + n % 10) as char]
  }

  predicate Canonical(s: string) {
    0 < |s| <= 10 && (forall i :: 0 <= i < |s| ==> Digit(s[i])) && (|s| > 1 ==> s[0] != '0')
  }

  function Number(s: string, maximum: nat, positive: bool): (r: Result<nat>)
    ensures r.Ok? ==> r.value <= maximum && (positive ==> r.value > 0)
  {
    if !Canonical(s) then Err(Shape)
    else
      var n := Decimal(s);
      if n > maximum then Err(Bound) else if positive && n == 0 then Err(Shape) else Ok(n)
  }

  /** str and int are inverse on numbers, and str never writes a leading zero. */
  lemma {:induction false} DecimalDigits(n: nat)
    ensures forall i :: 0 <= i < |Digits(n)| ==> Digit(Digits(n)[i])
    ensures Decimal(Digits(n)) == n && Digits(n) != [] && (n > 0 ==> Digits(n)[0] != '0')
    ensures n < 10 ==> |Digits(n)| == 1
    ensures n >= 10 ==> |Digits(n)| == |Digits(n / 10)| + 1
  {
    var s := Digits(n);
    if n < 10 {
      assert s[..0] == [];
    } else {
      DecimalDigits(n / 10);
      assert s[..|s| - 1] == Digits(n / 10);
    }
  }

  /** int and str: a digit string without leading zeros is what str writes for its value. */
  lemma {:induction false} DigitsOfDecimal(s: string)
    requires s != [] && (forall i :: 0 <= i < |s| ==> Digit(s[i])) && (|s| > 1 ==> s[0] != '0')
    ensures Digits(Decimal(s)) == s && (|s| > 1 ==> Decimal(s) >= 10)
  {
    var init, last := s[..|s| - 1], s[|s| - 1];
    assert Digit(last) && s == init + [last];
    if |s| == 1 {
      assert init == [] && Decimal(s) == last as int - '0' as int;
    } else {
      assert init[0] == s[0];
      DigitsOfDecimal(init);
      var d := last as int - '0' as int;
      if |init| == 1 { OneDigit(init); }
      assert Decimal(s) == 10 * Decimal(init) + d && Decimal(s) / 10 == Decimal(init) && Decimal(s) % 10 == d;
    }
  }

  lemma OneDigit(s: string)
    requires |s| == 1 && Digit(s[0]) && s[0] != '0'
    ensures Decimal(s) > 0
  {
    assert s[..0] == [];
  }

  /** Exactly what str writes of a number in range is accepted, as that number. */
  lemma NumberExact(s: string, maximum: nat, positive: bool, n: nat)
    ensures Number(s, maximum, positive) == Ok(n) <==> s == Digits(n) && |s| <= 10 && n <= maximum && (positive ==> n > 0)
  {
    hide Digits, Decimal;
    DecimalDigits(n);
    if Canonical(s) {
      DigitsOfDecimal(s);
    }
    if s == Digits(n) && |s| > 1 && n == 0 { ZeroDigit(); }
  }

  lemma ZeroDigit()
    ensures |Digits(0)| == 1
  {
  }

  lemma DigitsLength(n: nat)
    requires n <= MAX_THREADS
    ensures |Digits(n)| <= 5
  {
    DecimalDigits(n);
    DecimalDigits(n / 10);
    DecimalDigits(n / 10 / 10);
    DecimalDigits(n / 10 / 10 / 10);
    DecimalDigits(n / 10 / 10 / 10 / 10);
  }

  // ----- finish -----

  predicate Space(c: char) { c == ' ' || ('\t' <= c <= '\r') }

  /** bytes.split(): maximal runs of other characters. */
  function Words(s: string): seq<string>
    decreases |s|
  {
    if s == [] then []
    else if Space(s[0]) then Words(s[1..])
    else [s[..WordEnd(s)]] + Words(s[WordEnd(s)..])
  }

  function WordEnd(s: string): (i: nat)
    ensures i <= |s| && (s != [] && !Space(s[0]) ==> i > 0)
  {
    if s == [] || Space(s[0]) then 0 else 1 + WordEnd(s[1..])
  }

  datatype Status = Status(pid: nat, ppid: nat, uids: seq<nat>, threads: Option<nat>)

  function Numbers(words: seq<string>, maximum: nat): (r: Result<seq<nat>>)
    ensures r.Ok? ==> |r.value| == |words|
  {
    if words == [] then Ok([])
    else
      match Number(words[0], maximum, false)
      case Err(reason) => Err(reason)
      case Ok(n) =>
        match Numbers(words[1..], maximum)
        case Err(reason) => Err(reason)
        case Ok(rest) => Ok([n] + rest)
  }

  /** The single namespace value must be the process id itself. */
  function OwnNamespace(words: seq<string>, pid: nat): bool {
    |words| == 1 && Number(words[0], 0x7fff_ffff, true) == Ok(pid)
  }

  function Finish(keys: set<string>, fields: map<string, string>, terminated: bool): (r: Result<Status>)
    requires KEYS - {"Threads"} <= keys <= KEYS
    ensures r.Ok? ==> terminated && fields.Keys == keys && 0 < r.value.pid <= 0x7fff_ffff && |r.value.uids| == 4
    ensures r.Ok? ==> OwnNamespace(Words(fields["NSpid"]), r.value.pid)
    ensures r.Ok? ==> (r.value.threads.Some? <==> "Threads" in keys)
  {
    if "NSpid" !in fields then Err(Profile)
    else if !terminated || fields.Keys != keys then Err(Shape)
    else
      assert "Uid" in keys && "Pid" in keys && "PPid" in keys;
      var uids := Words(fields["Uid"]);
      if |uids| != 4 then Err(Shape) else
      match Number(fields["Pid"], 0x7fff_ffff, true)
      case Err(reason) => Err(reason)
      case Ok(pid) =>
        if !OwnNamespace(Words(fields["NSpid"]), pid) then Err(Profile) else
        match Number(fields["PPid"], 0x7fff_ffff, false)
        case Err(reason) => Err(reason)
        case Ok(ppid) =>
          match Numbers(uids, 0xffff_ffff)
          case Err(reason) => Err(reason)
          case Ok(numbers) =>
            if "Threads" !in keys then Ok(Status(pid, ppid, numbers, None))
            else
              match Number(fields["Threads"], MAX_THREADS, true)
              case Err(reason) => Err(reason)
              case Ok(threads) => Ok(Status(pid, ppid, numbers, Some(threads)))
  }

  /** The plain reading of a complete status text. */
  function ParseStatus(keys: set<string>, text: string): Result<Status>
    requires KEYS - {"Threads"} <= keys <= KEYS
  {
    if |text| > MAX_STATUS then Err(Bound)
    else
      match ReadAll(keys, map[], text)
      case Err(reason) => Err(reason)
      case Ok(fields) => Finish(keys, fields, Ends(text))
  }

  predicate Ends(text: string) { text == [] || text[|text| - 1] == '\n' }

  /** Feeding the pieces one after another. */
  method FeedPieces(p: Projection, chunks: seq<string>) returns (r: Result<()>)
    requires p.Now() == Fresh && p.total == 0 && p.terminated
    modifies p
    ensures match FeedAll(p.keys, Fresh, 0, chunks)
            case Err(reason) => r == Err(reason)
            case Ok(next) => r.Ok? && p.Now() == next && p.terminated == Ends(Concat(chunks))
  {
    hide Steps;
    for n := 0 to |chunks|
      invariant FeedAll(p.keys, Fresh, 0, chunks) == FeedAll(p.keys, p.Now(), p.total, chunks[n..])
      invariant p.terminated == Ends(Concat(chunks[..n]))
    {
      assert chunks[n..][0] == chunks[n] && chunks[n..][1..] == chunks[n + 1..];
      assert chunks[..n + 1] == chunks[..n] + [chunks[n]];
      ConcatAppend(chunks[..n], chunks[n]);
      var fed := p.Feed(chunks[n]);
      if fed.Err? {
        return Err(fed.reason);
      }
    }
    assert chunks[..|chunks|] == chunks;
    return Ok(());
  }

  /** A status file read in pieces of any size gives what the plain reading of its text gives. */
  method ReadStatus(sampleThreads: bool, chunks: seq<string>) returns (r: Result<Status>)
    ensures var keys := if sampleThreads then KEYS else KEYS - {"Threads"};
            var plain := ParseStatus(keys, Concat(chunks));
            && ((r.Ok? || plain.Ok? || |Concat(chunks)| <= MAX_STATUS) ==> r == plain)
            && (|Concat(chunks)| > MAX_STATUS ==>
                  r == Err(Bound) || (r == Err(Shape) && ReadAll(keys, map[], Concat(chunks)[..MAX_STATUS]) == Err(Shape)))
  {
    hide Steps, Concat, ReadAll, Finish, FeedAll;
    var p := new Projection(sampleThreads);
    assert KeysOk(p.keys);
    ChunksRead(p.keys, chunks);
    if |Concat(chunks)| > MAX_STATUS {
      TooLongReason(p.keys, chunks);
    }
    var fed := FeedPieces(p, chunks);
    if fed.Err? {
      return Err(fed.reason);
    }
    r := Finish(p.keys, p.fields, p.terminated);
  }

  lemma TooLongReason(keys: set<string>, chunks: seq<string>)
    requires KeysOk(keys) && |Concat(chunks)| > MAX_STATUS
    ensures var fed := FeedAll(keys, Fresh, 0, chunks);
            fed == Err(Bound) || (fed == Err(Shape) && ReadAll(keys, map[], Concat(chunks)[..MAX_STATUS]) == Err(Shape))
  {
    hide FeedAll, Steps, ReadAll, Concat, KeysOk;
    var part := Concat(chunks)[..MAX_STATUS];
    FeedTooLong(keys, Fresh, 0, chunks);
    StepsRead(keys, map[], "", part);
    assert "" + part == part && LineState(keys, map[], "") == Fresh;
    NoProfile(keys, map[], part);
  }

  /** The plain reading refuses for shape or bound only. */
  lemma {:induction false} NoProfile(keys: set<string>, fields: map<string, string>, text: string)
    ensures ReadAll(keys, fields, text).Err? ==> ReadAll(keys, fields, text).reason != Profile
    decreases |text|
  {
    var end := LineEnd(text);
    if end < |text| {
      var line := ReadLine(keys, fields, text[..end]);
      assert line.Err? ==> line.reason != Profile;
      if line.Ok? {
        NoProfile(keys, line.value, text[end + 1..]);
      }
    }
  }

  lemma {:induction false} ConcatAppend(chunks: seq<string>, chunk: string)
    ensures Concat(chunks + [chunk]) == Concat(chunks) + chunk
  {
    if chunks == [] {
      assert [] + [chunk] == [chunk] && [chunk][1..] == [];
    } else {
      assert (chunks + [chunk])[1..] == chunks[1..] + [chunk];
      ConcatAppend(chunks[1..], chunk);
    }
  }

  // ----- Census records -----

  const PREFIX: string := "OMUX_NATIVE_THREADS_V1"
  const MARKER: string := "failure-before-cleanup"
  const MAX_RECORD: nat := 128
  const ROLES: set<string> := {"self", "daemon", "keyring", "native-bootstrap", "native-resume"}
  const STATES: set<string> := {"observed", "not-created", "retired", "missing", "permission", "identity",
                                "profile", "shape", "bound", "deadline", "os-other"}

  datatype Census = Census(role: string, state: string, count: Option<int>)

  predicate CensusOk(c: Census) {
    && c.role in ROLES && c.state in STATES
    && if c.state == "observed" then c.count.Some? && 1 <= c.count.value <= MAX_THREADS else c.count.None?
  }

  function Record(c: Census): Option<string> {
    if !CensusOk(c) then None
    else Some(Join([PREFIX, MARKER, c.role, c.state, if c.count.Some? then Digits(c.count.value) else "none"]) + "\n")
  }

  /** What parse_record takes out of a payload before it compares; None where it refuses. */
  function ParseRecord(payload: string): Option<Census> {
    if |payload| > MAX_RECORD || payload == [] || payload[|payload| - 1] != '\n' || '\n' in payload[..|payload| - 1] then None
    else
      var parts := Split(payload[..|payload| - 1]);
      if |parts| != 5 || parts[0] != PREFIX || parts[1] != MARKER then None
      else if parts[3] == "observed" && Number(parts[4], MAX_THREADS, true).Err? then None
      else
        var count := if parts[3] == "observed" then Some(Number(parts[4], MAX_THREADS, true).value) else None;
        var c := Census(parts[2], parts[3], count);
        if Record(c) == Some(payload) then Some(c) else None
  }

  lemma NamesPlain(c: Census)
    requires CensusOk(c)
    ensures Plain(c.role) && |c.role| <= 16 && Plain(c.state) && |c.state| <= 11
  {
    RolePlain(c.role);
    StatePlain(c.state);
  }

  lemma RolePlain(role: string)
    requires role in ROLES
    ensures Plain(role) && |role| <= 16
  {
  }

  lemma StatePlain(state: string)
    requires state in STATES
    ensures Plain(state) && |state| <= 11
  {
  }

  lemma JoinMore(first: string, rest: seq<string>)
    requires rest != []
    ensures Join([first] + rest) == first + "/" + Join(rest)
  {
  }

  lemma JoinFive(a: string, b: string, c: string, d: string, e: string)
    ensures Join([a, b, c, d, e]) == a + "/" + (b + "/" + (c + "/" + (d + "/" + e)))
  {
    JoinMore(d, [e]);
    JoinMore(c, [d] + [e]);
    JoinMore(b, [c] + ([d] + [e]));
    JoinMore(a, [b] + ([c] + ([d] + [e])));
    assert [a] + ([b] + ([c] + ([d] + [e]))) == [a, b, c, d, e];
  }

  /** Every record that is written is read back as the value it was written from. */
  lemma RecordParses(c: Census)
    requires CensusOk(c)
    ensures ParseRecord(Record(c).value) == Some(c)
  {
    hide ROLES, STATES, Number, Digits, PREFIX, MARKER, Split, Join, Plain;
    CountText(c);
    var count := if c.count.Some? then Digits(c.count.value) else "none";
    var parts := [PREFIX, MARKER, c.role, c.state, count];
    NamesPlain(c);
    LineSplits(c.role, c.state, count);
    var payload := Record(c).value;
    assert payload[..|payload| - 1] == Join(parts);
    assert c == Census(parts[2], parts[3], if parts[3] == "observed" then Some(Number(parts[4], MAX_THREADS, true).value) else None);
  }

  lemma LineSplits(role: string, state: string, count: string)
    requires Plain(role) && |role| <= 16 && Plain(state) && |state| <= 11 && Plain(count) && |count| <= 5
    ensures var line := Join([PREFIX, MARKER, role, state, count]);
            && Split(line) == [PREFIX, MARKER, role, state, count]
            && |line| < MAX_RECORD && '\n' !in line
  {
    hide Split, Join;
    assert |PREFIX| == 22 && |MARKER| == 22;
    SplitJoin([PREFIX, MARKER, role, state, count]);
    JoinFive(PREFIX, MARKER, role, state, count);
  }

  lemma CountText(c: Census)
    requires CensusOk(c)
    ensures var count := if c.count.Some? then Digits(c.count.value) else "none";
            Plain(count) && |count| <= 5 && (c.state == "observed" ==> Number(count, MAX_THREADS, true) == Ok(c.count.value))
  {
    if c.count.Some? {
      DecimalDigits(c.count.value);
      DigitsLength(c.count.value);
    }
  }

  /** A payload is accepted as a value exactly when it is the record that is written for that value. */
  lemma ParsedIsRecord(payload: string, c: Census)
    ensures ParseRecord(payload) == Some(c) <==> Record(c) == Some(payload)
  {
    if Record(c) == Some(payload) {
      RecordParses(c);
    }
  }
}
