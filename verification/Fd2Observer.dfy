/**
  The ptrace observer delivery/native_fd2_observer.c and the acceptor of its one record,
  `parse_record` in delivery/native_fd2_observer.py.

  The kernel is an adversary that supplies an arbitrary sequence of events.  The task table
  is the source's fixed array with swap removal.  `Armed` and `FirstWrite` read the history of
  events one task at a time, without any table, and say what the record must carry.
*/
module Fd2Observer {

  import opened Basics

  const TASK_CAP: nat := 256
  const STOP_CAP: nat := 100000
  const RECORD_CAP: nat := 224
  const SYS_WRITE: nat := 1
  const SYS_WRITEV: nat := 20

  // ----- What sample() can report -----

  datatype Image = ImageBackend | ImageLoader | ImageOther | ImageUnavailable
  datatype Sink = SinkCapture | SinkOther | SinkUnavailable
  datatype Origin = OriginBackend | OriginLoader | OriginLibc | OriginOther | OriginUnavailable
  datatype Call = CallWrite | CallWritev

  datatype Sample = Sample(image: Image, sink: Sink, origin: Origin)

  /** What a task with a pending write carries. */
  datatype Facts = Facts(image: Image, sink: Sink, call: Call, origin: Origin)

  // ----- Events -----

  datatype Info =
    | Unusable
    | Entry(nr: nat, arg0: nat, sample: Option<Sample>)
    | Leave(isError: bool, rval: int)
    | OtherOp

  datatype Stop =
    | Forked(child: Option<nat>)
    | Execed(former: Option<nat>)
    | Syscall(info: Info)
    | Signalled(signal: int)

  datatype Event =
    | Cancel
    | ClockFault(errno: int)
    | Deadline
    | Idle
    | WaitFault(errno: int)
    | WaitKind(id: int)
    | Gone(id: int, code: int)
    | Stopped(id: int, stop: Stop, optionsSet: bool, resumed: bool, errno: int)

  /** The (pid_t) cast of an unsigned long. */
  function Pid(x: nat): int {
    var m := x % 0x1_0000_0000;
    if m < 0x8000_0000 then m else m - 0x1_0000_0000
  }

  function WriteCall(i: Info): Option<Call> {
    if i.Entry? && i.arg0 == 2 && i.nr == SYS_WRITE then Some(CallWrite)
    else if i.Entry? && i.arg0 == 2 && i.nr == SYS_WRITEV then Some(CallWritev)
    else None
  }

  // ----- The history, read one task at a time -----

  /** The effect of one event on whether task `id` is inside a sampled write to descriptor 2. */
  function ArmedBy(e: Event, id: int, before: Option<Facts>): Option<Facts> {
    match e
    case Gone(gone, _) => if gone == id then None else before
    case Stopped(at, Execed(Some(former)), _, _, _) =>
      if at == id || (former != 0 && Pid(former) == id) then None else before
    case Stopped(at, Syscall(info), _, _, _) =>
      if at != id then before
      else if WriteCall(info).Some? && info.sample.Some? then
        var s := info.sample.value;
        Some(Facts(s.image, s.sink, WriteCall(info).value, s.origin))
      else None
    case _ => before
  }

  function Armed(h: seq<Event>, id: int): Option<Facts> {
    if h == [] then None else ArmedBy(h[|h| - 1], id, Armed(h[..|h| - 1], id))
  }

  predicate SuccessfulExit(e: Event) {
    e.Stopped? && e.stop.Syscall? && e.stop.info.Leave? && !e.stop.info.isError && e.stop.info.rval > 0
  }

  /** The first task that left a sampled write to descriptor 2 successfully, and what was sampled. */
  function FirstWrite(h: seq<Event>): Option<(int, Facts)> {
    if h == [] then None
    else
      var before, last := h[..|h| - 1], h[|h| - 1];
      if FirstWrite(before).Some? then FirstWrite(before)
      else if SuccessfulExit(last) && Armed(before, last.id).Some? then Some((last.id, Armed(before, last.id).value))
      else None
  }

  /** The effect of one event on whether the record of task `id` has facts of a sample, old or new. */
  function SampledBy(e: Event, id: int, before: bool, nothingYet: bool): bool {
    match e
    case Gone(gone, _) => before && gone != id
    case Stopped(at, Execed(Some(former)), _, _, _) => before && !(former != 0 && Pid(former) == id && id != at)
    case Stopped(at, Syscall(info), _, _, _) => before || (at == id && nothingYet && WriteCall(info).Some? && info.sample.Some?)
    case _ => before
  }

  function Sampled(h: seq<Event>, id: int): bool {
    h != [] && SampledBy(h[|h| - 1], id, Sampled(h[..|h| - 1], id), FirstWrite(h[..|h| - 1]).None?)
  }

  /** A write to descriptor 2 begins, its sample fails, and the task never had one. */
  predicate BadSample(h: seq<Event>, e: Event) {
    && e.Stopped? && e.stop.Syscall? && WriteCall(e.stop.info).Some? && e.stop.info.sample.None?
    && FirstWrite(h).None? && !Sampled(h, e.id)
  }

  // ----- The task table -----

  /** A field that was never assigned is None. */
  datatype Task = Task(id: int, pending: bool, image: Option<Image>, sink: Option<Sink>, call: Option<Call>,
                       origin: Option<Origin>)

  function NewTask(id: int): Task { Task(id, false, None, None, None, None) }

  predicate AllSet(t: Task) { t.image.Some? && t.sink.Some? && t.call.Some? && t.origin.Some? }

  function PendingFacts(t: Task): Option<Facts> {
    if t.pending && AllSet(t) then Some(Facts(t.image.value, t.sink.value, t.call.value, t.origin.value)) else None
  }

  ghost predicate DistinctIds(s: seq<Task>) {
    forall i, j :: 0 <= i < j < |s| ==> s[i].id != s[j].id
  }

  ghost predicate Present(s: seq<Task>, id: int) {
    exists i :: 0 <= i < |s| && s[i].id == id
  }

  class Table {
    const tasks: array<Task>
    var count: nat

    ghost predicate Valid()
      reads this, tasks
    {
      tasks.Length == TASK_CAP && count <= TASK_CAP && DistinctIds(tasks[..count])
    }

    constructor ()
      ensures Valid() && count == 0 && fresh(tasks)
    {
      tasks := new Task[TASK_CAP](i => NewTask(0));
      count := 0;
    }

    method Find(id: int) returns (i: int)
      requires Valid()
      ensures i == -1 <==> !Present(tasks[..count], id)
      ensures i != -1 ==> 0 <= i < count && tasks[i].id == id
    {
      i := 0;
      while i < count
        invariant 0 <= i <= count && forall j :: 0 <= j < i ==> tasks[j].id != id
      {
        if tasks[i].id == id {
          assert tasks[..count][i].id == id;
          return;
        }
        i := i + 1;
      }
      i := -1;
    }

    /** Finds or appends; a full table refuses a new id. */
    method Add(id: int) returns (i: int)
      requires Valid()
      modifies this, tasks
      ensures Valid()
      ensures i == -1 <==> !old(Present(tasks[..count], id)) && old(count) == TASK_CAP
      ensures i != -1 ==> 0 <= i < count && tasks[i].id == id
      ensures i == -1 || old(Present(tasks[..count], id)) ==> tasks[..count] == old(tasks[..count])
      ensures i != -1 && !old(Present(tasks[..count], id)) ==> tasks[..count] == old(tasks[..count]) + [NewTask(id)]
    {
      i := Find(id);
      if i != -1 || count == TASK_CAP {
        return;
      }
      i := count;
      tasks[count] := NewTask(id);
      count := count + 1;
    }

    /** Swap removal: the last task takes the place of the removed one. */
    method RemoveTask(id: int)
      requires Valid()
      modifies this, tasks
      ensures Valid() && !Present(tasks[..count], id)
      ensures forall t :: t in tasks[..count] <==> t in old(tasks[..count]) && t.id != id
    {
      var i := 0;
      while i < count
        invariant 0 <= i <= count && forall j :: 0 <= j < i ==> tasks[j].id != id
      {
        if tasks[i].id == id {
          ghost var s := tasks[..count];
          count := count - 1;
          tasks[i] := tasks[count];
          Swapped(s, i);
          assert tasks[..count] == s[i := s[|s| - 1]][..|s| - 1];
          return;
        }
        i := i + 1;
      }
    }

    lemma Swapped(s: seq<Task>, i: nat)
      requires DistinctIds(s) && i < |s|
      ensures var t := s[i := s[|s| - 1]][..|s| - 1];
              DistinctIds(t) && !Present(t, s[i].id) && forall x :: x in t <==> x in s && x.id != s[i].id
    {
      var t := s[i := s[|s| - 1]][..|s| - 1];
      forall x | x in s && x.id != s[i].id ensures x in t {
        var j :| 0 <= j < |s| && s[j] == x;
        if j == |s| - 1 { assert t[i] == x; } else { assert t[j] == x; }
      }
    }
  }

  // ----- The table against the history -----

  ghost predicate Tracks(s: seq<Task>, h: seq<Event>) {
    && (forall t :: t in s ==> PendingFacts(t) == Armed(h, t.id))
    && (forall id :: Armed(h, id).Some? ==> Present(s, id))
  }

  lemma ArmedAppend(h: seq<Event>, e: Event, id: int)
    ensures Armed(h + [e], id) == ArmedBy(e, id, Armed(h, id))
  {
  }

  lemma FirstWriteAppend(h: seq<Event>, e: Event)
    ensures FirstWrite(h + [e]) ==
            if FirstWrite(h).Some? then FirstWrite(h)
            else if SuccessfulExit(e) && Armed(h, e.id).Some? then Some((e.id, Armed(h, e.id).value)) else None
  {
  }

  /** Events that say nothing about writes. */
  predicate Neutral(e: Event) {
    !e.Gone? && !(e.Stopped? && ((e.stop.Execed? && e.stop.former.Some?) || e.stop.Syscall?))
  }

  lemma TracksNeutral(s: seq<Task>, h: seq<Event>, e: Event)
    requires Tracks(s, h) && Neutral(e)
    ensures Tracks(s, h + [e]) && FirstWrite(h + [e]) == FirstWrite(h)
  {
  }

  lemma TracksNew(s: seq<Task>, h: seq<Event>, id: int)
    requires Tracks(s, h) && !Present(s, id)
    ensures Tracks(s + [NewTask(id)], h)
  {
    forall x | Armed(h, x).Some? ensures Present(s + [NewTask(id)], x) {
      var i :| 0 <= i < |s| && s[i].id == x;
      assert (s + [NewTask(id)])[i].id == x;
    }
  }

  lemma TracksGone(s: seq<Task>, s': seq<Task>, h: seq<Event>, id: int, code: int)
    requires Tracks(s, h) && forall t :: t in s' <==> t in s && t.id != id
    ensures Tracks(s', h + [Gone(id, code)]) && FirstWrite(h + [Gone(id, code)]) == FirstWrite(h)
  {
  }

  /** An event about task `at` that replaces its record and says nothing about the others. */
  lemma TracksUpdate(s: seq<Task>, i: nat, t: Task, h: seq<Event>, e: Event)
    requires Tracks(s, h) && DistinctIds(s) && i < |s| && t.id == s[i].id
    requires forall x :: x != t.id ==> ArmedBy(e, x, Armed(h, x)) == Armed(h, x)
    requires PendingFacts(t) == ArmedBy(e, t.id, Armed(h, t.id))
    ensures Tracks(s[i := t], h + [e])
  {
    forall x ensures Armed(h + [e], x) == ArmedBy(e, x, Armed(h, x)) { ArmedAppend(h, e, x); }
    forall x | Armed(h + [e], x).Some? ensures Present(s[i := t], x) {
      if x == t.id {
        assert s[i := t][i].id == x;
      } else {
        var j :| 0 <= j < |s| && s[j].id == x;
        assert s[i := t][j].id == x;
      }
    }
    forall y | y in s[i := t] ensures PendingFacts(y) == Armed(h + [e], y.id) {
      var j :| 0 <= j < |s| && s[i := t][j] == y;
      if j != i { assert s[j] in s && s[j].id != s[i].id; }
    }
  }

  /** The exec event: the former thread's record goes, the leader's pending flag is dropped. */
  lemma TracksExec(s: seq<Task>, s': seq<Task>, i: nat, h: seq<Event>, e: Event)
    requires Tracks(s, h) && e.Stopped? && e.stop.Execed? && e.stop.former.Some?
    requires DistinctIds(s') && i < |s'| && s'[i].id == e.id
    requires forall t :: t in s' <==> t in s && (t.id == e.id || e.stop.former.value == 0 || t.id != Pid(e.stop.former.value))
    ensures Tracks(s'[i := s'[i].(pending := false)], h + [e]) && FirstWrite(h + [e]) == FirstWrite(h)
  {
    var r := s'[i := s'[i].(pending := false)];
    forall x ensures Armed(h + [e], x) == ArmedBy(e, x, Armed(h, x)) { ArmedAppend(h, e, x); }
    FirstWriteAppend(h, e);
    forall x | Armed(h + [e], x).Some? ensures Present(r, x) {
      var k :| 0 <= k < |s| && s[k].id == x;
      assert s[k] in s';
      var j :| 0 <= j < |s'| && s'[j] == s[k];
      assert r[j].id == x;
    }
    forall y | y in r ensures PendingFacts(y) == Armed(h + [e], y.id) {
      var j :| 0 <= j < |r| && r[j] == y;
      if j != i { assert s'[j] in s' && s'[j].id != s'[i].id && s'[j] in s; }
    }
  }

  // ----- Which records have facts -----

  ghost predicate Facted(s: seq<Task>, h: seq<Event>) {
    && (forall t :: t in s ==> (AllSet(t) <==> Sampled(h, t.id)) && (AllSet(t) || t.image.None?))
    && (forall id :: Sampled(h, id) ==> Present(s, id))
  }

  lemma SampledAppend(h: seq<Event>, e: Event, id: int)
    ensures Sampled(h + [e], id) == SampledBy(e, id, Sampled(h, id), FirstWrite(h).None?)
  {
    assert (h + [e])[..|h|] == h;
  }

  lemma FactedNeutral(s: seq<Task>, h: seq<Event>, e: Event)
    requires Facted(s, h) && Neutral(e)
    ensures Facted(s, h + [e])
  {
    hide Sampled, AllSet;
    forall id ensures Sampled(h + [e], id) == Sampled(h, id) { SampledAppend(h, e, id); }
  }

  lemma FactedNew(s: seq<Task>, h: seq<Event>, id: int)
    requires Facted(s, h) && !Present(s, id)
    ensures Facted(s + [NewTask(id)], h)
  {
    hide Sampled;
    var r := s + [NewTask(id)];
    forall x | Sampled(h, x) ensures Present(r, x) {
      var i :| 0 <= i < |s| && s[i].id == x;
      assert r[i].id == x;
    }
  }

  lemma FactedGone(s: seq<Task>, s': seq<Task>, h: seq<Event>, id: int, code: int)
    requires Facted(s, h) && forall t :: t in s' <==> t in s && t.id != id
    ensures Facted(s', h + [Gone(id, code)])
  {
    hide Sampled, AllSet;
    forall x ensures Sampled(h + [Gone(id, code)], x) == (Sampled(h, x) && x != id) { SampledAppend(h, Gone(id, code), x); }
    forall x | Sampled(h, x) && x != id ensures Present(s', x) {
      var i :| 0 <= i < |s| && s[i].id == x;
      assert s[i] in s';
    }
  }

  /** A syscall stop that replaces the record of its task. */
  lemma FactedUpdate(s: seq<Task>, i: nat, t: Task, h: seq<Event>, e: Event)
    requires Facted(s, h) && DistinctIds(s) && i < |s| && e.Stopped? && e.stop.Syscall? && t.id == s[i].id == e.id
    requires AllSet(t) <==> Sampled(h + [e], t.id)
    requires AllSet(t) || t.image.None?
    ensures Facted(s[i := t], h + [e])
  {
    hide Sampled, AllSet, FirstWrite;
    var r := s[i := t];
    forall x ensures x != e.id ==> Sampled(h + [e], x) == Sampled(h, x) { SampledAppend(h, e, x); }
    forall x | Sampled(h + [e], x) ensures Present(r, x) {
      if x == e.id {
        assert r[i].id == x;
      } else {
        var j :| 0 <= j < |s| && s[j].id == x;
        assert r[j].id == x;
      }
    }
    forall y | y in r ensures (AllSet(y) <==> Sampled(h + [e], y.id)) && (AllSet(y) || y.image.None?) {
      var j :| 0 <= j < |r| && r[j] == y;
      if j != i { assert s[j] in s && s[j].id != s[i].id; }
    }
  }

  lemma FactedExec(s: seq<Task>, s': seq<Task>, i: nat, h: seq<Event>, e: Event)
    requires Facted(s, h) && e.Stopped? && e.stop.Execed? && e.stop.former.Some?
    requires DistinctIds(s') && i < |s'| && s'[i].id == e.id
    requires forall t :: t in s' <==> t in s && (t.id == e.id || e.stop.former.value == 0 || t.id != Pid(e.stop.former.value))
    ensures Facted(s'[i := s'[i].(pending := false)], h + [e])
  {
    hide Sampled, FirstWrite, Pid;
    var r := s'[i := s'[i].(pending := false)];
    forall x ensures Sampled(h + [e], x) == (Sampled(h, x) && !(e.stop.former.value != 0 && Pid(e.stop.former.value) == x && x != e.id)) {
      SampledAppend(h, e, x);
    }
    forall x | Sampled(h + [e], x) ensures Present(r, x) {
      var k :| 0 <= k < |s| && s[k].id == x;
      assert s[k] in s';
      var j :| 0 <= j < |s'| && s'[j] == s[k];
      assert r[j].id == x;
    }
    forall y | y in r ensures (AllSet(y) <==> Sampled(h + [e], y.id)) && (AllSet(y) || y.image.None?) {
      var j :| 0 <= j < |r| && r[j] == y;
      assert s'[j] in s' && s'[j] in s;
    }
  }

  // ----- Text of a record, as the C program prints it -----

  const PREFIX: string := "OMUX_FD2_OBSERVER_V1"

  function ImageName(i: Image): string {
    match i case ImageBackend => "image-backend" case ImageLoader => "image-loader"
            case ImageOther => "image-other" case ImageUnavailable => "image-unavailable"
  }

  function SinkName(x: Sink): string {
    match x case SinkCapture => "sink-sampled-capture" case SinkOther => "sink-sampled-other"
            case SinkUnavailable => "sink-unavailable"
  }

  function CallName(c: Call): string { match c case CallWrite => "call-write" case CallWritev => "call-writev" }

  function OriginName(o: Origin): string {
    match o case OriginBackend => "origin-backend" case OriginLoader => "origin-loader" case OriginLibc => "origin-libc"
            case OriginOther => "origin-other" case OriginUnavailable => "origin-unavailable"
  }

  /** error_kind: closed classes of errno values. */
  function ErrorKind(n: int): string {
    if n == 0 then "none" else if n == 10 then "child" else if n == 3 then "task-gone"
    else if n == 13 || n == 1 then "permission" else if n == 22 then "argument" else if n == 5 then "io"
    else if n == 38 || n == 95 then "unsupported" else if n == 4 then "interrupted" else if n == 11 then "busy"
    else if n == 12 then "memory" else "other"
  }

  /** The six fields after the prefix. */
  function Fields(state: string, first: Option<(bool, Facts)>): seq<string> {
    match first
    case None => [state, "writer-none", "image-none", "sink-none", "call-none", "origin-none"]
    case Some((root, f)) =>
      [state, if root then "writer-root-task" else "writer-other-task", ImageName(f.image), SinkName(f.sink),
       CallName(f.call), OriginName(f.origin)]
  }

  function Text(state: string, first: Option<(bool, Facts)>): string {
    Join([PREFIX] + Fields(state, first)) + "\n"
  }

  // ----- The acceptor, as the Python program reads it -----

  const STATES: set<string> := {"observed", "no-write", "unavailable", "error", "cancelled", "deadline",
                                "task-bound", "stop-bound", "cleanup-incomplete"}
  const ERROR_STAGES: set<string> := {"launch-fork", "launch-table", "clock", "wait", "wait-kind", "fork-event",
                                      "fork-zero", "exec-event", "exec-table", "resume", "root-exit-missing"}
  const ERROR_KINDS: set<string> := {"none", "child", "task-gone", "permission", "argument", "io", "unsupported",
                                     "interrupted", "busy", "memory", "other"}
  const WRITERS: set<string> := {"writer-none", "writer-root-task", "writer-other-task"}
  const IMAGES: set<string> := {"image-none", "image-backend", "image-loader", "image-other", "image-unavailable"}
  const SINKS: set<string> := {"sink-none", "sink-sampled-capture", "sink-sampled-other", "sink-unavailable"}
  const CALLS: set<string> := {"call-none", "call-write", "call-writev"}
  const ORIGINS: set<string> := {"origin-none", "origin-backend", "origin-loader", "origin-libc", "origin-other",
                                 "origin-unavailable"}

  predicate StateOk(s: string) {
    s in STATES || exists stage, kind :: stage in ERROR_STAGES && kind in ERROR_KINDS && s == "error-" + stage + "-" + kind
  }

  predicate Accepted(parts: seq<string>) {
    && |parts| == 7 && parts[0] == PREFIX
    && StateOk(parts[1]) && parts[2] in WRITERS && parts[3] in IMAGES && parts[4] in SINKS && parts[5] in CALLS
    && parts[6] in ORIGINS
    && (parts[1] == "no-write" ==>
          parts[2..] == ["writer-none", "image-none", "sink-none", "call-none", "origin-none"])
    && (parts[1] == "observed" ==>
          parts[2] != "writer-none" && parts[3] != "image-none" && parts[4] != "sink-none" && parts[5] != "call-none"
          && parts[6] != "origin-none")
  }

  function ParseRecord(data: string): Option<string> {
    if |data| > RECORD_CAP || data == [] || data[|data| - 1] != '\n' || '\n' in data[..|data| - 1] then None
    else
      var parts := Split(data[..|data| - 1]);
      if Accepted(parts) then Some(Join(parts[1..])) else None
  }

  // ----- Everything printed is accepted -----

  lemma StatePlain(state: string)
    requires StateOk(state)
    ensures Plain(state) && |state| <= 35
  {
    if state in STATES {
      StatesPlain(state);
    } else {
      hide *;
      var stage, kind :| stage in ERROR_STAGES && kind in ERROR_KINDS && state == "error-" + stage + "-" + kind;
      StagePlain(stage);
      KindPlain(kind);
      ErrorPlain(stage, kind);
    }
  }

  lemma ErrorPlain(stage: string, kind: string)
    requires Plain(stage) && |stage| <= 17 && Plain(kind) && |kind| <= 11
    ensures Plain("error-" + stage + "-" + kind) && |"error-" + stage + "-" + kind| <= 35
  {
  }

  lemma StatesPlain(state: string)
    requires state in STATES
    ensures Plain(state) && |state| <= 18
  {
  }

  lemma StagePlain(stage: string)
    requires stage in ERROR_STAGES
    ensures Plain(stage) && |stage| <= 17
  {
  }

  lemma KindPlain(kind: string)
    requires kind in ERROR_KINDS
    ensures Plain(kind) && |kind| <= 11
  {
  }

  predicate Short(s: string) { Plain(s) && |s| <= 20 }

  lemma ImagePlain(i: Image)
    ensures Short(ImageName(i))
  {
  }

  lemma SinkPlain(x: Sink)
    ensures Short(SinkName(x))
  {
  }

  lemma CallPlain(c: Call)
    ensures Short(CallName(c))
  {
  }

  lemma OriginPlain(o: Origin)
    ensures Short(OriginName(o))
  {
  }

  lemma NonePlain()
    ensures Short("writer-none") && Short("image-none") && Short("sink-none") && Short("call-none") && Short("origin-none")
  {
  }

  lemma WritersPlain()
    ensures Short("writer-root-task") && Short("writer-other-task")
  {
  }

  lemma FieldsPlain(state: string, first: Option<(bool, Facts)>, i: nat)
    requires 1 <= i < 6
    ensures Plain(Fields(state, first)[i]) && |Fields(state, first)[i]| <= 20
  {
    NonePlain();
    WritersPlain();
    assert Short(Fields(state, first)[i]) by {
      hide Short, ImageName, SinkName, CallName, OriginName;
      if first.Some? {
        var f := first.value.1;
        ImagePlain(f.image);
        SinkPlain(f.sink);
        CallPlain(f.call);
        OriginPlain(f.origin);
      }
    }
  }

  lemma JoinLength(p: seq<string>)
    requires |p| == 7 && |p[0]| == 20 && |p[1]| <= 35 && forall i :: 2 <= i < 7 ==> |p[i]| <= 20
    ensures |Join(p)| <= 161
  {
    var p1, p2, p3, p4, p5, p6 := p[1..], p[2..], p[3..], p[4..], p[5..], p[6..];
    assert p1[1..] == p2 && p2[1..] == p3 && p3[1..] == p4 && p4[1..] == p5 && p5[1..] == p6;
    assert |Join(p6)| <= 20;
    assert |Join(p5)| <= 41;
    assert |Join(p4)| <= 62;
    assert |Join(p3)| <= 83;
    assert |Join(p2)| <= 104;
    assert |Join(p1)| <= 140;
  }

  /** A record whose facts fit its state fits the buffer and is accepted, field by field. */
  lemma TextAccepted(state: string, first: Option<(bool, Facts)>)
    requires StateOk(state) && (state == "no-write" ==> first.None?) && (state == "observed" ==> first.Some?)
    ensures |Text(state, first)| < RECORD_CAP
    ensures ParseRecord(Text(state, first)) == Some(Join(Fields(state, first)))
  {
    hide Accepted, Split, Join, Plain, StateOk;
    var parts := [PREFIX] + Fields(state, first);
    PartsPlain(state, first);
    JoinLength(parts);
    SplitJoin(parts);
    var data := Text(state, first);
    assert data[..|data| - 1] == Join(parts);
    assert parts[1..] == Fields(state, first);
    FieldsAccepted(state, first);
  }

  lemma PartsPlain(state: string, first: Option<(bool, Facts)>)
    requires StateOk(state)
    ensures var parts := [PREFIX] + Fields(state, first);
            && |parts| == 7 && |parts[0]| == 20 && |parts[1]| <= 35 && (forall i :: 2 <= i < 7 ==> |parts[i]| <= 20)
            && forall i :: 0 <= i < 7 ==> Plain(parts[i])
  {
    var parts := [PREFIX] + Fields(state, first);
    StatePlain(state);
    forall i | 2 <= i < 7 ensures Plain(parts[i]) && |parts[i]| <= 20 { FieldsPlain(state, first, i - 1); }
  }

  lemma FieldsAccepted(state: string, first: Option<(bool, Facts)>)
    requires StateOk(state) && (state == "no-write" ==> first.None?) && (state == "observed" ==> first.Some?)
    ensures Accepted([PREFIX] + Fields(state, first))
  {
  }

  // ----- The event loop -----

  const SIGSTOP: int := 19

  ghost predicate Complete(s: seq<Task>) {
    forall t :: t in s && t.pending ==> AllSet(t)
  }

  /** The fault stages the loop can really end with. */
  const FAULTS: set<string> := {"clock", "wait", "wait-kind", "fork-event", "fork-zero", "exec-event", "resume"}

  const STOPS: set<string> := {"cancelled", "deadline", "unavailable", "task-bound", "stop-bound"}

  /** The first write, as the record shows it. */
  function Latched(root: int, h: seq<Event>): Option<(bool, Facts)> {
    match FirstWrite(h) case None => None case Some((id, facts)) => Some((id == root, facts))
  }

  lemma LatchedNext(root: int, h: seq<Event>, e: Event)
    ensures Latched(root, h + [e]) ==
            if Latched(root, h).Some? then Latched(root, h)
            else if SuccessfulExit(e) && Armed(h, e.id).Some? then Some((e.id == root, Armed(h, e.id).value)) else None
    ensures Latched(root, h).None? <==> FirstWrite(h).None?
  {
    hide Armed;
    FirstWriteAppend(h, e);
  }

  class Observer {
    const root: int
    const table: Table
    var stops: nat
    var initialized: bool
    var rootDone: bool
    var broken: bool
    var state: string
    var stage: string
    var errno: int
    var first: Option<(bool, Facts)>   // the latched writer (is it the root task?) and facts

    /** The events whose handling ran to its end. */
    ghost var history: seq<Event>
    /** The loop ended at a failed sample of a task that never had one. */
    ghost var unsampled: bool

    ghost function Tasks(): seq<Task>
      reads this, table, table.tasks
      requires table.Valid()
    {
      table.tasks[..table.count]
    }

    ghost predicate Valid()
      reads this, table, table.tasks
    {
      && table.Valid()
      && (!broken ==> Facted(Tasks(), history) && (first.None? ==> Tracks(Tasks(), history)))
      && (Complete(Tasks()) <==> !unsampled) && (unsampled ==> broken && state == "unavailable")
      && first == Latched(root, history)
      && (!broken ==> state == "error" && stage == "launch-table")
      && (broken ==> table.count > 0 && (state in STOPS || (state == "error" && stage in FAULTS)))
    }

    /** fork succeeded and the root task is in the table: it has room for one. */
    constructor (root: int)
      ensures Valid() && !broken && this.root == root && fresh(table) && fresh(table.tasks)
      ensures table.count == 1 && Present(Tasks(), root) && history == [] && stops == 0 && !initialized
    {
      this.root := root;
      table := new Table();
      stops, initialized, rootDone, broken := 0, false, false, false;
      state, stage, errno, first, history, unsampled := "error", "launch-table", 0, None, [], false;
      new;
      var i := table.Add(root);
      assert Tasks() == [NewTask(root)];
      assert Tasks()[0].id == root;
    }

    method Fault(stage: string, errno: int)
      requires Valid() && !broken && table.count > 0 && stage in FAULTS
      modifies this`broken, this`stage, this`errno
      ensures Valid() && broken && this.stage == stage
    {
      broken, this.stage, this.errno := true, stage, errno;
    }

    method Quit(state: string)
      requires Valid() && !broken && table.count > 0 && state in STOPS
      modifies this`broken, this`state
      ensures Valid() && broken && this.state == state
    {
      broken, this.state := true, state;
    }

    /** The task's record, created when an unknown task of ours stops. */
    method Locate(id: int) returns (i: int)
      requires Valid() && !broken
      modifies table, table.tasks
      ensures Valid() && old(table.count) <= table.count <= old(table.count) + 1
      ensures i != -1 ==> 0 <= i < table.count && table.tasks[i].id == id
      ensures i == -1 <==> !(old(Present(Tasks(), id)) || old(table.count) < TASK_CAP)
    {
      hide Sampled, FirstWrite, Armed;
      ghost var s := Tasks();
      i := table.Add(id);
      if i != -1 && !Present(s, id) {
        FactedNew(s, history, id);
        if first.None? {
          TracksNew(s, history, id);
        }
      }
    }

    method SetTask(i: nat, t: Task)
      requires table.Valid() && i < table.count && table.tasks[i].id == t.id
      modifies table.tasks
      ensures table.Valid() && Tasks() == old(Tasks())[i := t]
    {
      ghost var s := Tasks();
      table.tasks[i] := t;
      assert Tasks() == s[i := t];
    }

    /** The syscall-stop branch: arm on entry, latch on a successful exit, disarm. */
    method HandleSyscall(i: nat, e: Event) returns (go: bool)
      requires Valid() && !broken && i < table.count && e.Stopped? && e.stop.Syscall? && table.tasks[i].id == e.id
      modifies this, table.tasks
      ensures Valid() && go == !broken && table.count == old(table.count) && (!go ==> state != "error")
      ensures history == if go then old(history) + [e] else old(history)
      ensures unsampled <==> BadSample(old(history), e)
      ensures stops == old(stops) && initialized == old(initialized)
    {
      hide Sampled, FirstWrite, Armed, Complete, Tracks, Facted;
      var info := e.stop.info;
      var t := table.tasks[i];
      if info.Unusable? || info.OtherOp? {
        Quit("unavailable");
        return false;
      }
      var call := WriteCall(info);
      if info.Entry? && first.None? && call.Some? {
        if info.sample.None? {
          StopAtSample(i, t.(pending := true, call := call), e);
          return false;
        }
        var x := info.sample.value;
        t := t.(pending := true, call := call, image := Some(x.image), sink := Some(x.sink), origin := Some(x.origin));
      } else {
        if info.Leave? && first.None? && t.pending && !info.isError && info.rval > 0 {
          assert AllSet(t) by { CompleteAt(Tasks(), i); }
          first := Some((e.id == root, Facts(t.image.value, t.sink.value, t.call.value, t.origin.value)));
        }
        t := t.(pending := false);
      }
      Replace(i, t, e, old(first));
      go := true;
    }

    lemma CompleteAt(s: seq<Task>, i: nat)
      requires Complete(s) && i < |s| && s[i].pending
      ensures AllSet(s[i])
    {
      assert s[i] in s;
    }

    /** The sample failed: the task is marked, its facts stay as they were, and the loop ends. */
    method StopAtSample(i: nat, t: Task, e: Event)
      requires Valid() && !broken && i < table.count && first.None? && e.Stopped? && e.stop.Syscall? && table.tasks[i].id == e.id
      requires WriteCall(e.stop.info).Some? && e.stop.info.sample.None?
      requires t == table.tasks[i].(pending := true, call := WriteCall(e.stop.info))
      modifies this`broken, this`state, this`unsampled, table.tasks
      ensures Valid() && broken && state == "unavailable" && (unsampled <==> BadSample(history, e))
    {
      hide Sampled, FirstWrite, Armed, Tracks;
      ghost var s := Tasks();
      assert s[i] in s;
      SetTask(i, t);
      assert Tasks()[i] == t && t in Tasks();
      assert forall y :: y in Tasks() ==> y == t || y in s;
      broken, state, unsampled := true, "unavailable", !AllSet(t);
    }

    /** The record after a syscall stop that was handled to its end. */
    method Replace(i: nat, t: Task, e: Event, ghost before: Option<(bool, Facts)>)
      requires table.Valid() && !broken && !unsampled && i < table.count && e.Stopped? && e.stop.Syscall? && table.tasks[i].id == e.id == t.id
      requires Facted(Tasks(), history) && Complete(Tasks()) && (before.None? ==> Tracks(Tasks(), history))
      requires before == Latched(root, history) && state == "error" && stage == "launch-table"
      requires var was, info, call := table.tasks[i], e.stop.info, WriteCall(e.stop.info);
               if info.Entry? && before.None? && call.Some? then
                 info.sample.Some? && first == before && t == Task(t.id, true, Some(info.sample.value.image), Some(info.sample.value.sink), call, Some(info.sample.value.origin))
               else
                 && (info.Entry? || info.Leave?) && t == was.(pending := false)
                 && first == if info.Leave? && before.None? && was.pending && !info.isError && info.rval > 0 && AllSet(was)
                             then Some((e.id == root, PendingFacts(was).value)) else before
      modifies this`history, table.tasks
      ensures Valid() && history == old(history) + [e]
    {
      hide Sampled, FirstWrite, Armed, Tracks, Facted;
      ghost var s := Tasks();
      assert s[i] in s;
      FactedAt(s, history, i);
      SampledAppend(history, e, t.id);
      FactedUpdate(s, i, t, history, e);
      if before.None? {
        TracksAt(s, history, i);
        LatchedNext(root, history, e);
        TracksUpdate(s, i, t, history, e);
      } else {
        LatchedNext(root, history, e);
      }
      SetTask(i, t);
      history := history + [e];
      assert forall y :: y in Tasks() ==> y == t || y in s;
    }

    lemma FactedAt(s: seq<Task>, h: seq<Event>, i: nat)
      requires Facted(s, h) && i < |s|
      ensures (AllSet(s[i]) <==> Sampled(h, s[i].id)) && (AllSet(s[i]) || s[i].image.None?)
    {
      assert s[i] in s;
    }

    lemma TracksAt(s: seq<Task>, h: seq<Event>, i: nat)
      requires Tracks(s, h) && i < |s|
      ensures PendingFacts(s[i]) == Armed(h, s[i].id)
    {
      assert s[i] in s;
    }

    method HandleExec(e: Event) returns (go: bool)
      requires Valid() && !broken && e.Stopped? && e.stop.Execed? && Present(Tasks(), e.id)
      modifies this, table, table.tasks
      ensures Valid() && go == !broken && !unsampled && table.count > 0 && (!go ==> stage != "resume")
      ensures history == if go then old(history) + [e] else old(history)
    {
      hide Sampled, FirstWrite, Armed, Tracks, Facted, Pid;
      ghost var s := Tasks();
      if e.stop.former.None? {
        Fault("exec-event", e.errno);
        return false;
      }
      var i := Supersede(e.stop.former.value, e.id);
      ghost var s' := Tasks();
      assert s'[i] in s';
      SetTask(i, table.tasks[i].(pending := false));
      LatchedNext(root, history, e);
      FactedExec(s, s', i, history, e);
      if first.None? {
        TracksExec(s, s', i, history, e);
      }
      history := history + [e];
      assert forall y :: y in Tasks() ==> y == s'[i].(pending := false) || y in s';
      go := true;
    }

    /** The entry of the former leader goes; the calling thread's stays, so the fault stage "exec-table" is unreachable. */
    method Supersede(former: nat, id: int) returns (i: nat)
      requires table.Valid() && Present(Tasks(), id)
      modifies table, table.tasks
      ensures table.Valid() && i < table.count && table.tasks[i].id == id
      ensures forall t :: t in Tasks() <==> t in old(Tasks()) && (t.id == id || former == 0 || t.id != Pid(former))
    {
      ghost var s := Tasks();
      if former != 0 && Pid(former) != id {
        table.RemoveTask(Pid(former));
      }
      StillThere(s, Tasks(), id);
      var found := table.Find(id);
      i := found;
    }

    lemma StillThere(s: seq<Task>, s': seq<Task>, id: int)
      requires Present(s, id) && forall t :: t in s && t.id == id ==> t in s'
      ensures Present(s', id)
    {
    }

    method HandleFork(e: Event) returns (go: bool)
      requires Valid() && !broken && e.Stopped? && e.stop.Forked? && table.count > 0
      modifies this, table, table.tasks
      ensures Valid() && go == !broken && !unsampled && table.count > 0 && (!go ==> state != "error" || stage != "resume")
      ensures history == if go then old(history) + [e] else old(history)
    {
      hide Sampled, FirstWrite, Armed, Tracks, Facted, Complete, Pid;
      if e.stop.child.None? {
        Fault("fork-event", e.errno);
        return false;
      }
      if e.stop.child.value == 0 {
        Fault("fork-zero", errno);
        return false;
      }
      var i := Locate(Pid(e.stop.child.value));
      if i == -1 {
        Quit("task-bound");
        return false;
      }
      Note(e);
      go := true;
    }

    /** The stop is handled: there is room for its task, and the root was set up first. */
    ghost predicate Admits(e: Event)
      reads this, table, table.tasks
      requires table.Valid() && e.Stopped?
    {
      && (Present(Tasks(), e.id) || table.count < TASK_CAP) && stops < STOP_CAP
      && (initialized || e.id != root || (e.stop == Signalled(SIGSTOP) && e.optionsSet))
    }

    /** What a turn of the loop leaves of the history: a resume that fails comes after the event was handled. */
    ghost predicate Noted(before: seq<Event>, e: Event)
      reads this
    {
      history == if broken && !(state == "error" && stage == "resume") then before else before + [e]
    }

    method HandleStop(e: Event)
      requires Valid() && !broken && e.Stopped? && table.count > 0
      modifies this, table, table.tasks
      ensures Valid() && table.count > 0 && Noted(old(history), e)
      ensures unsampled <==> old(Admits(e)) && BadSample(old(history), e)
      ensures old(Admits(e)) && e.stop.Signalled? && e.resumed ==>
                !broken && stops == old(stops) + 1 && initialized == (old(initialized) || e.id == root) && table.count <= old(table.count) + 1
      ensures e.stop.Syscall? ==> initialized == old(initialized)
      ensures broken && state == "unavailable" && e.stop.Syscall? && (initialized || e.id != root) ==> old(Admits(e))
    {
      hide Sampled, FirstWrite, Armed, Tracks, Facted, Complete;
      var i := Locate(e.id);
      if i == -1 {
        Quit("task-bound");
        return;
      }
      assert Tasks()[i].id == e.id;
      stops := stops + 1;
      if stops > STOP_CAP {
        Quit("stop-bound");
        return;
      }
      if !initialized && e.id == root {
        if e.stop != Signalled(SIGSTOP) || !e.optionsSet {
          Quit("unavailable");
          return;
        }
        initialized := true;
      }
      Dispatch(i, e);
    }

    /** The branches on the kind of stop, and the resume. */
    method Dispatch(i: nat, e: Event)
      requires Valid() && !broken && i < table.count && e.Stopped? && table.tasks[i].id == e.id
      modifies this, table, table.tasks
      ensures Valid() && table.count > 0 && Noted(old(history), e)
      ensures unsampled <==> BadSample(old(history), e)
      ensures e.stop.Signalled? && e.resumed ==> !broken && stops == old(stops) && initialized == old(initialized) && table.count == old(table.count)
      ensures e.stop.Syscall? ==> initialized == old(initialized)
    {
      hide Sampled, FirstWrite, Armed, Tracks, Facted, Complete;
      assert Tasks()[i].id == e.id;
      var go;
      match e.stop
      case Forked(_) => go := HandleFork(e);
      case Execed(_) => go := HandleExec(e);
      case Syscall(_) => go := HandleSyscall(i, e);
      case Signalled(_) =>
        Note(e);
        go := true;
      if go && !e.resumed {
        Fault("resume", e.errno);
      }
    }

    /** An event that concerns no task's writes. */
    method Note(e: Event)
      requires Valid() && !broken && Neutral(e)
      modifies this`history
      ensures Valid() && history == old(history) + [e]
    {
      hide Sampled, FirstWrite, Armed, Tracks, Facted, Complete;
      LatchedNext(root, history, e);
      FactedNeutral(Tasks(), history, e);
      if first.None? {
        TracksNeutral(Tasks(), history, e);
      }
      history := history + [e];
    }

    /** The exit status was consumed; the id is never signalled again. */
    method HandleGone(e: Event)
      requires Valid() && !broken && e.Gone?
      modifies this, table, table.tasks
      ensures Valid() && !broken && history == old(history) + [e]
    {
      hide Sampled, FirstWrite, Armed, Tracks, Facted;
      ghost var s := Tasks();
      rootDone := rootDone || e.id == root;
      table.RemoveTask(e.id);
      LatchedNext(root, history, e);
      FactedGone(s, Tasks(), history, e.id, e.code);
      if first.None? {
        TracksGone(s, Tasks(), history, e.id, e.code);
      }
      history := history + [e];
    }

    /** One turn of the loop. */
    method Step(e: Event)
      requires Valid() && !broken && table.count > 0
      modifies this, table, table.tasks
      ensures Valid() && Noted(old(history), e)
      ensures unsampled <==> e.Stopped? && old(Admits(e)) && BadSample(old(history), e)
      ensures e.Stopped? && old(Admits(e)) && e.stop.Signalled? && e.resumed ==>
                !broken && 0 < table.count <= old(table.count) + 1 && stops == old(stops) + 1 && initialized == (old(initialized) || e.id == root)
      ensures e.Stopped? && e.stop.Syscall? ==> initialized == old(initialized)
      ensures broken && state == "unavailable" && e.Stopped? && e.stop.Syscall? && (initialized || e.id != root) ==> old(Admits(e))
    {
      hide Complete, Tracks, FirstWrite, Facted, Sampled, Armed;
      match e
      case Cancel => Quit("cancelled");
      case ClockFault(n) => Fault("clock", n);
      case Deadline => Quit("deadline");
      case Idle => Note(e);
      case WaitFault(n) => Fault("wait", n);
      case WaitKind(_) => Fault("wait-kind", errno);
      case Gone(_, _) => HandleGone(e);
      case Stopped(_, _, _, _, _) => HandleStop(e);
    }

    /**
      The loop over the events the kernel delivers, of which it took `taken`; `ended` when it left the
      loop before they ran out.  In every state in which the loop goes on, a pending task has its
      facts.  After the loop one lacks them if and only if the last event was a write whose sample
      failed for a task that never had one.
    */
    method Run(events: seq<Event>) returns (ended: bool, ghost taken: nat)
      requires Valid() && !broken && history == []
      modifies this, table, table.tasks
      ensures Valid() && ended == (broken || table.count == 0) && taken <= |events|
      ensures !broken ==> history == events[..taken] && Complete(Tasks()) && (!ended ==> taken == |events|)
      ensures broken ==> taken > 0 && Noted(events[..taken - 1], events[taken - 1])
      ensures Complete(Tasks()) <==> !unsampled
      ensures unsampled <==> broken && state == "unavailable" && PastSetup(events[taken - 1]) && BadSample(history, events[taken - 1])
    {
      hide Complete, Tracks, FirstWrite, Facted, Sampled, Armed, BadSample;
      var n := 0;
      while n < |events| && !broken && table.count > 0
        invariant 0 <= n <= |events| && Valid()
        invariant !broken ==> history == events[..n] && !unsampled
        invariant broken ==> n > 0 && Noted(events[..n - 1], events[n - 1])
        invariant broken ==> (unsampled <==> state == "unavailable" && PastSetup(events[n - 1]) && BadSample(history, events[n - 1]))
      {
        assert events[..n + 1] == events[..n] + [events[n]];
        Turn(events[n]);
        n := n + 1;
      }
      ended, taken := broken || table.count == 0, n;
    }

    /** The stop of a task that is past its set-up. */
    ghost predicate PastSetup(e: Event)
      reads this
    {
      e.Stopped? && (initialized || e.id != root)
    }

    /** A turn, with the condition said of the state after it. */
    method Turn(e: Event)
      requires Valid() && !broken && table.count > 0
      modifies this, table, table.tasks
      ensures Valid() && Noted(old(history), e) && (!broken ==> !unsampled)
      ensures broken ==> (unsampled <==> state == "unavailable" && PastSetup(e) && BadSample(history, e))
    {
      hide Complete, Tracks, FirstWrite, Facted, Sampled, Armed;
      Step(e);
    }

    /**
      The end of main: selection of the state, the one record and the exit code.  The record is
      never truncated, the acceptor takes it, an "observed" record carries exactly the first
      successful sampled write of the history and a "no-write" record means there was none.
    */
    method Finish(cleanedUp: bool, rootCode: int, written: bool) returns (record: string, code: int)
      requires Valid() && (broken || table.count == 0)
      ensures |record| < RECORD_CAP && ParseRecord(record).Some?
      ensures exists final :: record == Text(final, first) && FinalState(final, cleanedUp)
      ensures code != 125 ==> code == rootCode && cleanedUp && table.count == 0 && rootDone && written
    {
      var final, fault := state, stage;
      if table.count == 0 && rootDone {
        final := if first.Some? then "observed" else "no-write";
      } else if table.count == 0 {
        fault := "root-exit-missing";
      }
      if !cleanedUp {
        final := "cleanup-incomplete";
      }
      if final == "error" {
        final := "error-" + fault + "-" + ErrorKind(errno);
        assert fault in ERROR_STAGES && ErrorKind(errno) in ERROR_KINDS;
        NotPlainState(fault, ErrorKind(errno));
      }
      assert StateOk(final);
      TextAccepted(final, first);
      record := Text(final, first);
      code := if written && (final == "observed" || final == "no-write") then rootCode else 125;
      assert FinalState(final, cleanedUp);
    }

    lemma NotPlainState(fault: string, kind: string)
      ensures ("error-" + fault + "-" + kind)[0] == 'e'
      ensures "error-" + fault + "-" + kind != "observed" && "error-" + fault + "-" + kind != "no-write"
    {
    }

    /** Which states the record can end with, and when. */
    ghost predicate FinalState(final: string, cleanedUp: bool)
      reads this, table, table.tasks
    {
      && (final == "observed" ==> cleanedUp && rootDone && FirstWrite(history).Some?)
      && (final == "no-write" ==> cleanedUp && rootDone && FirstWrite(history).None?)
      && (cleanedUp && table.count == 0 && rootDone ==> final == if FirstWrite(history).Some? then "observed" else "no-write")
      && (final in STATES || exists fault, kind :: fault in FAULTS + {"root-exit-missing"} && kind in ERROR_KINDS
                                                   && final == "error-" + fault + "-" + kind)
    }
  }

  function LaunchFailure(forkErrno: int, cleanedUp: bool): string {
    if cleanedUp then "error-launch-fork-" + ErrorKind(forkErrno) else "cleanup-incomplete"
  }

  lemma LaunchFailureAccepted(forkErrno: int, cleanedUp: bool)
    ensures |Text(LaunchFailure(forkErrno, cleanedUp), None)| < RECORD_CAP && ParseRecord(Text(LaunchFailure(forkErrno, cleanedUp), None)).Some?
  {
    hide Text, ParseRecord;
    var kind := ErrorKind(forkErrno);
    assert kind in ERROR_KINDS;
    hide ErrorKind, ERROR_KINDS;
    assert "launch-fork" in ERROR_STAGES;
    assert "error-launch-fork-" + kind == "error-" + "launch-fork" + "-" + kind;
    NotASuccess(kind);
    TextAccepted(LaunchFailure(forkErrno, cleanedUp), None);
  }

  datatype Setup = BadArguments | Refused | Ready

  /**
    main: arguments that are refused give no record, an unsuitable environment and a failed fork give
    one without facts; then the loop and its end.  The facts of the record are those of the first
    successful sampled write among the events that the loop took; without any it is not "observed",
    and with one it is not "no-write".
  */
  method Observe(setup: Setup, forked: Option<int>, forkErrno: int, events: seq<Event>, cleanedUp: bool, rootCode: int, written: bool)
    returns (record: Option<string>)
    ensures record.Some? ==> |record.value| < RECORD_CAP && ParseRecord(record.value).Some?
    ensures setup.BadArguments? ==> record.None?
    ensures setup.Ready? && forked.Some? && record.Some? ==> exists n: nat, final ::
              && n <= |events| && record.value == Text(final, Latched(forked.value, events[..n]))
              && (final == "observed" ==> FirstWrite(events[..n]).Some?) && (final == "no-write" ==> FirstWrite(events[..n]).None?)
  {
    hide LaunchFailure, Text, ParseRecord, FirstWrite, BadSample;
    if setup.BadArguments? {
      return None;
    }
    if setup.Refused? {
      RefusalAccepted();
      return Some(Text("unavailable", None));
    }
    if forked.None? {
      var final := LaunchFailure(forkErrno, cleanedUp);
      LaunchFailureAccepted(forkErrno, cleanedUp);
      return Some(Text(final, None));
    }
    var observer := new Observer(forked.value);
    ghost var taken;
    var ended;
    ended, taken := observer.Run(events);
    if !ended {
      return None;
    }
    var text, code := observer.Finish(cleanedUp, rootCode, written);
    record := Some(text);
    ghost var n: nat := |observer.history|;
    assert n <= |events| && observer.history == events[..n] by { TakenPrefix(observer, events, taken); }
    ghost var final :| text == Text(final, observer.first) && observer.FinalState(final, cleanedUp);
    assert text == Text(final, Latched(forked.value, events[..n]));
  }

  lemma TakenPrefix(o: Observer, events: seq<Event>, taken: nat)
    requires taken <= |events| && (!o.broken ==> o.history == events[..taken])
    requires o.broken ==> taken > 0 && o.Noted(events[..taken - 1], events[taken - 1])
    ensures |o.history| <= |events| && o.history == events[..|o.history|]
  {
    if o.broken {
      assert events[..taken] == events[..taken - 1] + [events[taken - 1]];
    }
  }

  lemma RefusalAccepted()
    ensures |Text("unavailable", None)| < RECORD_CAP && ParseRecord(Text("unavailable", None)).Some?
  {
    hide Text, ParseRecord;
    TextAccepted("unavailable", None);
  }

  /** Such a run: the root stops, is set up, and enters a write to descriptor 2 whose sample fails. */
  method UnsampledWrite() returns (o: Observer)
    ensures o.table.Valid() && o.broken && o.state == "unavailable" && !Complete(o.Tasks())
  {
    hide Complete, Tracks, Facted, Armed;
    o := new Observer(7);
    var first := Stopped(7, Signalled(SIGSTOP), true, true, 0);
    o.Step(first);
    var bad := Stopped(7, Syscall(Entry(SYS_WRITE, 2, None)), true, true, 0);
    assert o.history == [first];
    OnlyStopped(first, 7);
    assert Present(o.Tasks(), 7) || o.table.count < TASK_CAP;
    o.Step(bad);
  }

  lemma OnlyStopped(e: Event, id: int)
    requires e.Stopped? && e.stop.Signalled?
    ensures FirstWrite([e]).None? && !Sampled([e], id)
  {
    assert [e][..0] == [];
  }

  lemma NotASuccess(kind: string)
    ensures "error-launch-fork-" + kind != "observed" && "error-launch-fork-" + kind != "no-write"
  {
  }
}
