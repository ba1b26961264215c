/**
  The bounded flush owner of nix/home_manager_acquisition.py: one copy thread hands
  duplicated descriptors to worker threads, which only ever call fsync on them.

  What the threads share is the value `Shared`; its atomic steps are functions, and every
  step keeps `Sound`.  `FileSyncOwner` is the copy thread.  Between any two of its steps (the bodies
  of a lease's lock, system calls, queueing) it calls `Interfere`, which performs any finite number
  of worker steps and foreign descriptor operations.  Choices of the kernel and the scheduler are
  `*`, so a contract covers each.

  Descriptor numbers are reused freely.  Each `dup` gets a fresh generation, and a monitor
  inside `Shared` counts the close attempts per generation (`tries`) and latches `misuse`
  when a number passed to fsync or close does not denote the generation it was meant for,
  or when fsync is called on a generation that was already closed.
*/
module FileSync {

  import opened Basics

  const MAX_PENDING_SYNCS: nat := 4
  const COUNTER_CAP: nat := 0x20_0000_0000_0000

  datatype Phase = Pending | Running | Done | Cancelled

  /** `called` and `failed` are the worker's locals: fsync was issued, an error was seen. */
  datatype Lease = Lease(fd: Option<int>, parent: Option<int>, fdGen: nat, parentGen: nat,
                         before: nat, blocks: nat, phase: Phase, called: bool, failed: bool,
                         finished: bool, counted: bool)

  datatype Shared = Shared(leases: map<nat, Lease>, queued: set<nat>, table: map<int, nat>, nextGen: nat,
                           duped: set<nat>, tries: multiset<nat>, misuse: bool)

  // ----- Invariants of the shared state -----

  /** The number still denotes the duplicate, and no close was attempted on it. */
  ghost predicate Own(k: Shared, n: Option<int>, g: nat) {
    n.Some? && n.value in k.table && k.table[n.value] == g && k.tries[g] == 0
  }

  ghost predicate LeaseSound(k: Shared, x: Lease) {
    && x.fdGen in k.duped && x.parentGen in k.duped && x.fdGen != x.parentGen
    && (Own(k, x.fd, x.fdGen) || (x.fd.None? && k.tries[x.fdGen] == 1 && x.finished))
    && (Own(k, x.parent, x.parentGen) || (x.parent.None? && k.tries[x.parentGen] == 1 && x.finished))
    && (x.finished ==> x.phase.Done? || x.phase.Cancelled?)
    && (x.phase == Pending ==> !x.called && !x.failed)
    && (x.phase == Cancelled ==> x.finished && !x.called)
    && (x.phase == Done && !x.failed ==> x.called)
    && (x.counted ==> x.phase == Done && x.finished)
  }

  predicate Holds(x: Lease, g: nat) { x.fdGen == g || x.parentGen == g }

  ghost predicate Apart(x: Lease, y: Lease) { !Holds(x, y.fdGen) && !Holds(x, y.parentGen) }

  ghost predicate Sound(k: Shared) {
    && !k.misuse
    && (forall i :: i in k.leases ==> LeaseSound(k, k.leases[i]))
    && (forall i, j :: i in k.leases && j in k.leases && i != j ==> Apart(k.leases[i], k.leases[j]))
    && (forall i :: i in k.leases ==> k.leases[i].fdGen == i)
    && (forall g :: g in k.duped ==> g < k.nextGen)
    && (forall n :: n in k.table ==> k.table[n] < k.nextGen)
    && (forall g :: g in k.tries ==> g in k.duped)
  }

  /** What the other threads may do to a lease. */
  ghost predicate Evolved(a: Lease, b: Lease) {
    && b == a.(phase := b.phase, called := b.called, failed := b.failed, finished := b.finished)
    && (a.finished ==> b == a) && (a.called ==> b.called) && (a.failed ==> b.failed)
    && (a.phase.Done? || a.phase.Cancelled? ==> b == a.(finished := b.finished))
    && (a.phase == Running ==> b.phase.Running? || b.phase.Done?)
    && (a.phase == Pending ==> b.phase != Cancelled)
  }

  /** What the other threads may do to the shared state. */
  ghost predicate Later(k: Shared, m: Shared) {
    && m.leases.Keys == k.leases.Keys && m.duped == k.duped && m.tries == k.tries && m.nextGen >= k.nextGen && m.queued <= k.queued
    && (forall i :: i in k.leases ==> Evolved(k.leases[i], m.leases[i]))
    && (forall i :: i in k.leases && i in k.queued && m.leases[i].phase == Pending ==> i in m.queued)
    && (forall n :: n in k.table && k.table[n] in k.duped ==> n in m.table && m.table[n] == k.table[n])
  }

  lemma LaterReflexive(k: Shared)
    ensures Later(k, k)
  {
  }

  lemma EvolvedTransitive(a: Lease, b: Lease, c: Lease)
    requires Evolved(a, b) && Evolved(b, c)
    ensures Evolved(a, c) && (c.phase.Pending? ==> b.phase.Pending?)
  {
  }

  lemma LaterTransitive(k: Shared, m: Shared, o: Shared)
    requires Later(k, m) && Later(m, o)
    ensures Later(k, o)
  {
    hide Evolved;
    forall i | i in k.leases ensures Evolved(k.leases[i], o.leases[i]) && (o.leases[i].phase.Pending? ==> m.leases[i].phase.Pending?) {
      EvolvedTransitive(k.leases[i], m.leases[i], o.leases[i]);
    }
  }

  // ----- Steps of other threads -----

  /** The worker is about to pass its descriptor to fsync. */
  predicate CallsFsync(x: Lease, queued: bool, clockFault: bool) {
    !queued && x.phase == Running && !x.called && !x.failed && !clockFault
  }

  /**
    FileSyncLease.run, cut at its lock boundaries and system calls.  A callable that is still
    queued claims its lease only if that is pending; a cancelled lease is left alone.
  */
  function NextLease(x: Lease, queued: bool, clockFault: bool, error: bool): Lease {
    if queued then
      if x.phase == Pending then x.(phase := Running) else x
    else if CallsFsync(x, queued, clockFault) then x.(called := true, failed := error)
    else if x.phase == Running && !x.called && !x.failed then x.(failed := true)
    else if x.phase == Running then x.(phase := Done, failed := x.failed || clockFault)
    else if x.phase == Done then x.(finished := true)
    else x
  }

  function Work(k: Shared, i: nat, clockFault: bool, error: bool): Shared
    requires i in k.leases
  {
    var x := k.leases[i];
    var stray := CallsFsync(x, i in k.queued, clockFault)
                 && (x.fd.None? || x.fd.value !in k.table || k.table[x.fd.value] != x.fdGen || k.tries[x.fdGen] != 0);
    k.(leases := k.leases[i := NextLease(x, i in k.queued, clockFault, error)],
       queued := k.queued - {i}, misuse := k.misuse || stray)
  }

  function ForeignOpen(k: Shared, n: int): Shared
    requires n !in k.table
  {
    k.(table := k.table[n := k.nextGen], nextGen := k.nextGen + 1)
  }

  function ForeignClose(k: Shared, n: int): Shared
    requires n in k.table && k.table[n] !in k.duped
  {
    k.(table := k.table - {n})
  }

  lemma NextLeaseSound(k: Shared, x: Lease, queued: bool, clockFault: bool, error: bool)
    requires LeaseSound(k, x)
    ensures var y := NextLease(x, queued, clockFault, error); LeaseSound(k, y) && Evolved(x, y)
  {
  }

  /** Replacing one lease by another with the same generations. */
  lemma ReplaceSound(k: Shared, i: nat, y: Lease)
    requires Sound(k) && i in k.leases && LeaseSound(k, y)
    requires y.fdGen == k.leases[i].fdGen && y.parentGen == k.leases[i].parentGen
    ensures Sound(k.(leases := k.leases[i := y]))
  {
  }

  /** Soundness does not depend on the executor's queue. */
  lemma QueueSound(k: Shared, queued: set<nat>)
    requires Sound(k)
    ensures Sound(k.(queued := queued))
  {
  }

  /** No interleaving of a worker with anything else uses a descriptor that is not its own. */
  lemma WorkSound(k: Shared, i: nat, clockFault: bool, error: bool)
    requires Sound(k) && i in k.leases
    ensures Sound(Work(k, i, clockFault, error)) && Later(k, Work(k, i, clockFault, error))
  {
    var x := k.leases[i];
    var y := NextLease(x, i in k.queued, clockFault, error);
    assert LeaseSound(k, x);
    var m := k.(leases := k.leases[i := y], queued := k.queued - {i});
    assert Work(k, i, clockFault, error) == m by {
      assert Own(k, x.fd, x.fdGen) || x.finished;
    }
    NextLeaseSound(k, x, i in k.queued, clockFault, error);
    ReplaceSound(k, i, y);
    QueueSound(k.(leases := k.leases[i := y]), k.queued - {i});
    LaterReplace(k, i, y);
  }

  lemma LaterReplace(k: Shared, i: nat, y: Lease)
    requires i in k.leases && Evolved(k.leases[i], y) && (i in k.queued ==> !y.phase.Pending?)
    ensures Later(k, k.(leases := k.leases[i := y], queued := k.queued - {i}))
  {
  }

  /** Opens and closes elsewhere do not touch a number that denotes a duplicate. */
  lemma ForeignLease(k: Shared, m: Shared, x: Lease)
    requires LeaseSound(k, x) && m.duped == k.duped && m.tries == k.tries
    requires forall n :: n in k.table && k.table[n] in k.duped ==> n in m.table && m.table[n] == k.table[n]
    ensures LeaseSound(m, x)
  {
    OwnKept(k, m, x.fd, x.fdGen);
    OwnKept(k, m, x.parent, x.parentGen);
  }

  lemma OwnKept(k: Shared, m: Shared, n: Option<int>, g: nat)
    requires g in k.duped && m.tries == k.tries
    requires forall v :: v in k.table && k.table[v] in k.duped ==> v in m.table && m.table[v] == k.table[v]
    ensures Own(k, n, g) ==> Own(m, n, g)
  {
    if Own(k, n, g) {
      var v := n.value;
      assert v in k.table && k.table[v] in k.duped;
      assert v in m.table;
    }
  }

  lemma ForeignKeeps(k: Shared, m: Shared)
    requires Sound(k) && m == k.(table := m.table, nextGen := m.nextGen) && m.nextGen >= k.nextGen
    requires forall n :: n in k.table && k.table[n] in k.duped ==> n in m.table && m.table[n] == k.table[n]
    requires forall n :: n in m.table ==> m.table[n] < m.nextGen
    ensures Sound(m) && Later(k, m)
  {
    hide LeaseSound;
    forall i | i in m.leases ensures LeaseSound(m, m.leases[i]) {
      ForeignLease(k, m, k.leases[i]);
    }
  }

  lemma ForeignSound(k: Shared, n: int)
    requires Sound(k)
    ensures n !in k.table ==> Sound(ForeignOpen(k, n)) && Later(k, ForeignOpen(k, n))
    ensures n in k.table && k.table[n] !in k.duped ==> Sound(ForeignClose(k, n)) && Later(k, ForeignClose(k, n))
  {
    hide LeaseSound, Apart, Later;
    if n !in k.table {
      ForeignKeeps(k, ForeignOpen(k, n));
    } else if k.table[n] !in k.duped {
      ForeignKeeps(k, ForeignClose(k, n));
    }
  }

  // ----- Steps of the copy thread -----

  function Dup(k: Shared, n: int): Shared
    requires n !in k.table
  {
    k.(table := k.table[n := k.nextGen], nextGen := k.nextGen + 1, duped := k.duped + {k.nextGen})
  }

  /** os.close: the number is released or, on some errors, kept; either way it was attempted. */
  function CloseNumber(k: Shared, n: int, g: nat, kept: bool): Shared {
    k.(tries := k.tries + multiset{g}, misuse := k.misuse || n !in k.table || k.table[n] != g,
       table := if kept then k.table else k.table - {n})
  }

  lemma DupSound(k: Shared, n: int)
    requires Sound(k) && n !in k.table
    ensures Sound(Dup(k, n)) && Dup(k, n).tries[k.nextGen] == 0 && k.nextGen !in k.duped
  {
  }

  lemma CloseOther(k: Shared, n: int, g: nat, kept: bool, y: Lease)
    requires Own(k, Some(n), g) && LeaseSound(k, y) && !Holds(y, g)
    ensures LeaseSound(CloseNumber(k, n, g, kept), y)
  {
  }

  /** Closing a duplicate that no lease holds disturbs no lease. */
  lemma CloseLooseSound(k: Shared, n: int, g: nat, kept: bool)
    requires Sound(k) && Own(k, Some(n), g) && g in k.duped
    requires forall i :: i in k.leases ==> !Holds(k.leases[i], g)
    ensures Sound(CloseNumber(k, n, g, kept)) && CloseNumber(k, n, g, kept).tries[g] == 1
  {
  }

  /** FileSyncLease.close for one of its two attributes: forget the number, then close it. */
  function Forget(x: Lease, fd: bool): Lease { if fd then x.(fd := None) else x.(parent := None) }

  function CloseHeld(k: Shared, i: nat, fd: bool, kept: bool): Shared
    requires i in k.leases
  {
    var x := k.leases[i];
    var n := if fd then x.fd else x.parent;
    var m := if n.None? then k else CloseNumber(k, n.value, if fd then x.fdGen else x.parentGen, kept);
    m.(leases := k.leases[i := Forget(x, fd)])
  }

  lemma ForgetSound(k: Shared, x: Lease, fd: bool, kept: bool)
    requires LeaseSound(k, x) && x.finished && (if fd then x.fd.Some? else x.parent.Some?)
    ensures LeaseSound(if fd then CloseNumber(k, x.fd.value, x.fdGen, kept)
                       else CloseNumber(k, x.parent.value, x.parentGen, kept), Forget(x, fd))
  {
  }

  lemma CloseHeldSound(k: Shared, i: nat, fd: bool, kept: bool)
    requires Sound(k) && i in k.leases && k.leases[i].finished
    ensures Sound(CloseHeld(k, i, fd, kept))
  {
    var x := k.leases[i];
    var n := if fd then x.fd else x.parent;
    var g := if fd then x.fdGen else x.parentGen;
    assert LeaseSound(k, x);
    if n.None? {
      ReplaceSound(k, i, Forget(x, fd));
    } else {
      var c := CloseNumber(k, n.value, g, kept);
      ForgetSound(k, x, fd, kept);
      forall j | j in k.leases && j != i ensures LeaseSound(c, k.leases[j]) {
        assert Apart(k.leases[j], x);
        CloseOther(k, n.value, g, kept, k.leases[j]);
      }
      RebuildSound(k, c, i, Forget(x, fd));
    }
  }

  lemma RebuildSound(k: Shared, c: Shared, i: nat, y: Lease)
    requires Sound(k) && i in k.leases && c.leases == k.leases && LeaseSound(c, y)
    requires forall j :: j in k.leases && j != i ==> LeaseSound(c, k.leases[j])
    requires y.fdGen == k.leases[i].fdGen && y.parentGen == k.leases[i].parentGen
    requires !c.misuse && c.duped == k.duped && c.nextGen == k.nextGen
    requires forall n :: n in c.table ==> n in k.table && c.table[n] == k.table[n]
    requires forall g :: g in c.tries ==> g in c.duped
    ensures Sound(c.(leases := k.leases[i := y]))
  {
    var m := c.(leases := k.leases[i := y]);
    forall j | j in m.leases ensures LeaseSound(m, m.leases[j]) {
      SameBooks(c, m, m.leases[j]);
    }
    hide LeaseSound;
  }

  lemma SameBooks(k: Shared, m: Shared, x: Lease)
    requires LeaseSound(k, x) && m == k.(leases := m.leases, queued := m.queued)
    ensures LeaseSound(m, x)
  {
  }

  /** Registers the lease that takes over two duplicates. */
  lemma AdmitSound(k: Shared, x: Lease)
    requires Sound(k) && LeaseSound(k, x)
    requires forall i :: i in k.leases ==> Apart(k.leases[i], x)
    ensures x.fdGen !in k.leases && Sound(k.(leases := k.leases[x.fdGen := x]))
  {
  }

  // ----- What the copy thread relies on between its steps -----

  ghost predicate Released(x: Lease) { x.fd.None? && x.parent.None? }

  ghost predicate Registered(k: Shared, pending: seq<nat>) {
    && |pending| <= MAX_PENDING_SYNCS
    && (forall i, j :: 0 <= i < j < |pending| ==> pending[i] != pending[j])
    && (forall i :: i in pending ==> i in k.leases && k.leases[i].fd.Some? && k.leases[i].parent.Some?)
  }

  /** Nobody but the leases in `held` still holds a duplicate, and every lease that ran was counted. */
  ghost predicate Settled(k: Shared, held: seq<nat>) {
    && (forall i :: i in k.leases && i !in held ==>
          Released(k.leases[i]) && (k.leases[i].phase.Done? ==> k.leases[i].counted))
    && NoStray(k, {})
  }

  /** Every duplicate was closed once, belongs to a lease, or is one of `loose`. */
  ghost predicate NoStray(k: Shared, loose: set<nat>) {
    forall g :: g in k.duped && g !in loose && k.tries[g] != 1 ==> exists i :: i in k.leases && Holds(k.leases[i], g)
  }

  ghost predicate Queued(k: Shared, pending: seq<nat>) {
    forall i :: i in pending && i in k.leases && k.leases[i].phase.Pending? ==> i in k.queued
  }

  ghost function Counted(k: Shared): set<nat> {
    set i | i in k.leases && k.leases[i].counted
  }

  /** The leases a worker claimed. */
  ghost function Ran(k: Shared): set<nat> {
    set i | i in k.leases && (k.leases[i].phase.Running? || k.leases[i].phase.Done?)
  }

  lemma LaterSettled(k: Shared, m: Shared, held: seq<nat>)
    requires Sound(k) && Later(k, m) && Settled(k, held)
    ensures Settled(m, held)
  {
  }

  lemma LaterRegistered(k: Shared, m: Shared, pending: seq<nat>)
    requires Later(k, m) && Registered(k, pending)
    ensures Registered(m, pending) && (Queued(k, pending) ==> Queued(m, pending))
  {
  }

  lemma LaterCounted(k: Shared, m: Shared)
    requires Later(k, m)
    ensures Counted(m) == Counted(k)
  {
  }

  /** Worker steps left before the lease reports that it is finished. */
  function Remaining(k: Shared, i: nat): nat
    requires i in k.leases
  {
    var x := k.leases[i];
    (if i in k.queued then 1 else 0) +
    match x.phase
    case Pending => 4
    case Running => if x.called || x.failed then 2 else 3
    case Done => if x.finished then 0 else 1
    case Cancelled => 0
  }

  lemma RemainingLater(k: Shared, m: Shared, i: nat)
    requires Later(k, m) && i in k.leases && Sound(k) && Sound(m)
    ensures Remaining(m, i) <= Remaining(k, i)
  {
  }

  /** A finished lease keeps its outcome. */
  ghost predicate Stable(k: Shared, m: Shared) {
    forall i :: i in k.leases ==>
      && i in m.leases && m.leases[i].blocks == k.leases[i].blocks
      && (k.leases[i].finished ==>
            && m.leases[i].finished && m.leases[i].phase == k.leases[i].phase
            && m.leases[i].called == k.leases[i].called && m.leases[i].failed == k.leases[i].failed)
  }

  lemma LaterStable(k: Shared, m: Shared)
    requires Later(k, m)
    ensures Stable(k, m)
  {
  }

  ghost predicate FinishedKept(k: Shared, m: Shared) {
    forall i :: i in k.leases && k.leases[i].finished ==> i in m.leases && m.leases[i] == k.leases[i]
  }

  lemma LaterFinished(k: Shared, m: Shared)
    requires Later(k, m)
    ensures FinishedKept(k, m)
  {
  }

  // ----- Accounts -----

  /** One call of charge_blocks: the allocation seen at the end against the one charged before. */
  datatype Charge = Charge(lease: nat, final: nat, previous: nat)

  function Growth(c: Charge): nat {
    if c.final > c.previous then c.final - c.previous else 0
  }

  function SumGrowth(log: seq<Charge>): nat {
    if log == [] then 0 else SumGrowth(log[..|log| - 1]) + Growth(log[|log| - 1])
  }

  function Min(a: nat, b: nat): nat { if a < b then a else b }

  /** The file reached the disk without error, is still the one admitted, and its growth is charged. */
  ghost predicate Flushed(k: Shared, charges: seq<Charge>, witnessed: set<nat>, i: nat)
    requires i in k.leases
  {
    && k.leases[i].finished && k.leases[i].phase.Done? && k.leases[i].called && !k.leases[i].failed
    && i in witnessed
    && exists c :: c in charges && c.lease == i && c.previous == k.leases[i].blocks
  }

  ghost predicate ChargedOnce(k: Shared, pending: seq<nat>, charges: seq<Charge>) {
    && (forall c :: c in charges ==> c.lease in k.leases && c.lease !in pending)
    && (forall a, b :: 0 <= a < b < |charges| ==> charges[a].lease != charges[b].lease)
  }

  ghost predicate AllFlushed(k: Shared, pending: seq<nat>, charges: seq<Charge>, witnessed: set<nat>) {
    forall i :: i in k.leases && i !in pending ==> Flushed(k, charges, witnessed, i)
  }

  lemma FlushedStable(k: Shared, m: Shared, pending: seq<nat>, charges: seq<Charge>, witnessed: set<nat>,
                      charges': seq<Charge>, witnessed': set<nat>)
    requires Stable(k, m) && m.leases.Keys == k.leases.Keys && AllFlushed(k, pending, charges, witnessed)
    requires charges <= charges' && witnessed <= witnessed'
    ensures AllFlushed(m, pending, charges', witnessed')
  {
  }

  ghost predicate Failure(k: Shared, i: nat) {
    i in k.leases && k.leases[i].phase.Done? && k.leases[i].failed
  }

  lemma FailureStays(k: Shared, m: Shared, i: nat)
    requires Later(k, m)
    ensures Failure(k, i) ==> Failure(m, i)
  {
  }

  // ----- Copy-thread steps keep the books -----

  function CancelLease(x: Lease): Lease {
    if x.phase.Pending? then x.(phase := Cancelled, finished := true) else x
  }

  lemma CancelSound(k: Shared, i: nat)
    requires Sound(k) && i in k.leases
    ensures LeaseSound(k, CancelLease(k.leases[i])) && SameCustody(k.leases[i], CancelLease(k.leases[i]))
  {
  }

  lemma CountSound(k: Shared, i: nat)
    requires Sound(k) && i in k.leases && k.leases[i].finished
    ensures k.leases[i].phase.Cancelled? ==> !k.leases[i].counted
    ensures !k.leases[i].phase.Cancelled? ==> k.leases[i].phase.Done? && LeaseSound(k, k.leases[i].(counted := true))
  {
  }

  /** Two lease records that differ only in what the lease's lock protects. */
  ghost predicate SameCustody(x: Lease, y: Lease) {
    && y == x.(phase := y.phase, finished := y.finished, counted := y.counted)
    && (x.finished ==> y == x.(counted := y.counted))
  }

  lemma TouchKeeps(k: Shared, i: nat, y: Lease, pending: seq<nat>, held: seq<nat>)
    requires Sound(k) && i in k.leases && LeaseSound(k, y) && SameCustody(k.leases[i], y) && i in held
    requires Registered(k, pending) && Settled(k, held)
    ensures var m := k.(leases := k.leases[i := y]);
            Sound(m) && Registered(m, pending) && Settled(m, held) && Stable(k, m)
            && (Queued(k, pending) && !y.phase.Pending? ==> Queued(m, pending))
  {
    hide Sound, LeaseSound;
    ReplaceSound(k, i, y);
    var m := k.(leases := k.leases[i := y]);
    forall g | g in m.duped && m.tries[g] != 1 ensures exists j :: j in m.leases && Holds(m.leases[j], g) {
      var j :| j in k.leases && Holds(k.leases[j], g);
      assert Holds(m.leases[j], g);
    }
  }

  lemma ForgetSettled(k: Shared, m: Shared, i: nat, held: seq<nat>)
    requires i in k.leases && i in held && Settled(k, held) && m.leases.Keys == k.leases.Keys && m.duped == k.duped
    requires forall j :: j in k.leases && j != i ==> m.leases[j] == k.leases[j]
    requires m.leases[i].fdGen == k.leases[i].fdGen && m.leases[i].parentGen == k.leases[i].parentGen
    requires forall g :: !Holds(k.leases[i], g) ==> m.tries[g] == k.tries[g]
    ensures Settled(m, held)
  {
  }

  lemma ForgetRest(k: Shared, m: Shared, i: nat, fd: bool, pending: seq<nat>)
    requires i in k.leases && m.leases == k.leases[i := Forget(k.leases[i], fd)] && m.queued == k.queued
    requires i !in pending && Registered(k, pending)
    ensures Registered(m, pending) && Stable(k, m) && Counted(m) == Counted(k)
    ensures Queued(k, pending) ==> Queued(m, pending)
  {
  }

  lemma CloseHeldKeeps(k: Shared, i: nat, fd: bool, kept: bool, pending: seq<nat>, held: seq<nat>)
    requires Sound(k) && i in k.leases && k.leases[i].finished && i in held && i !in pending
    requires Registered(k, pending) && Settled(k, held)
    ensures var m := CloseHeld(k, i, fd, kept);
            Sound(m) && Registered(m, pending) && Settled(m, held) && Stable(k, m)
            && Counted(m) == Counted(k) && (Queued(k, pending) ==> Queued(m, pending))
  {
    hide Sound, LeaseSound, Registered, Settled, Stable, Queued, Counted;
    CloseHeldSound(k, i, fd, kept);
    var m := CloseHeld(k, i, fd, kept);
    ForgetSettled(k, m, i, held);
    ForgetRest(k, m, i, fd, pending);
  }

  lemma SettleReleased(k: Shared, i: nat, held: seq<nat>)
    requires Settled(k, [i] + held) && i in k.leases && Released(k.leases[i])
    requires k.leases[i].phase.Done? ==> k.leases[i].counted
    ensures Settled(k, held)
  {
  }

  lemma Interfered(k: Shared, m: Shared, pending: seq<nat>, charges: seq<Charge>, witnessed: set<nat>)
    requires Sound(k) && Later(k, m) && Registered(k, pending) && Settled(k, pending) && Queued(k, pending)
    requires ChargedOnce(k, pending, charges)
    ensures Registered(m, pending) && Settled(m, pending) && Queued(m, pending) && ChargedOnce(m, pending, charges)
    ensures Stable(k, m) && (AllFlushed(k, pending, charges, witnessed) ==> AllFlushed(m, pending, charges, witnessed))
  {
    hide Sound, Registered, Settled, Queued, Stable, AllFlushed;
    LaterSettled(k, m, pending);
    LaterRegistered(k, m, pending);
    LaterStable(k, m);
    if AllFlushed(k, pending, charges, witnessed) {
      FlushedStable(k, m, pending, charges, witnessed, charges, witnessed);
    }
  }

  /** The head of the queue leaves it; it is then the only unregistered holder. */
  lemma PopHead(k: Shared, pending: seq<nat>)
    requires pending != [] && Registered(k, pending) && Settled(k, pending) && Queued(k, pending)
    ensures pending[0] !in pending[1..] && Registered(k, pending[1..]) && Queued(k, pending[1..])
    ensures [pending[0]] + pending[1..] == pending
  {
  }

  lemma WorkProgress(k: Shared, i: nat, clockFault: bool, error: bool)
    requires Sound(k) && i in k.leases && !k.leases[i].finished && (k.leases[i].phase.Pending? ==> i in k.queued)
    ensures Remaining(Work(k, i, clockFault, error), i) < Remaining(k, i)
  {
  }

  lemma ChargeHead(k: Shared, pending: seq<nat>, charges: seq<Charge>, c: Charge)
    requires pending != [] && Registered(k, pending) && ChargedOnce(k, pending, charges) && c.lease == pending[0]
    ensures ChargedOnce(k, pending[1..], charges) && ChargedOnce(k, pending[1..], charges + [c])
    ensures SumGrowth(charges + [c]) == SumGrowth(charges) + Growth(c)
  {
  }

  lemma FlushHead(k: Shared, pending: seq<nat>, charges: seq<Charge>, witnessed: set<nat>, c: Charge)
    requires Sound(k) && pending != [] && Registered(k, pending) && AllFlushed(k, pending, charges, witnessed)
    requires c.lease == pending[0] && c.previous == k.leases[c.lease].blocks
    requires k.leases[c.lease].finished && k.leases[c.lease].phase.Done? && !k.leases[c.lease].failed
    ensures AllFlushed(k, pending[1..], charges + [c], witnessed + {c.lease})
  {
  }

  /** A duplicate the copy thread holds in a local variable. */
  ghost predicate Loose(k: Shared, n: int, g: nat) {
    Own(k, Some(n), g) && g in k.duped && forall i :: i in k.leases ==> !Holds(k.leases[i], g)
  }

  lemma LaterLoose(k: Shared, m: Shared, n: int, g: nat)
    requires Later(k, m) && Loose(k, n, g)
    ensures Loose(m, n, g)
  {
  }

  /** dup and close of a loose duplicate leave every lease and every account alone. */
  ghost predicate SameLeases(k: Shared, m: Shared) {
    m.leases == k.leases && m.queued == k.queued
  }

  lemma SameLeasesKeeps(k: Shared, m: Shared, pending: seq<nat>, charges: seq<Charge>, witnessed: set<nat>)
    requires SameLeases(k, m)
    ensures Registered(k, pending) ==> Registered(m, pending)
    ensures Queued(k, pending) ==> Queued(m, pending)
    ensures ChargedOnce(k, pending, charges) ==> ChargedOnce(m, pending, charges)
    ensures AllFlushed(k, pending, charges, witnessed) ==> AllFlushed(m, pending, charges, witnessed)
    ensures Counted(m) == Counted(k)
  {
  }

  ghost predicate ReleasedOutside(k: Shared, held: seq<nat>) {
    forall i :: i in k.leases && i !in held ==>
      Released(k.leases[i]) && (k.leases[i].phase.Done? ==> k.leases[i].counted)
  }

  /** Everything `Valid` says about the shared state, while `loose` is in local variables. */
  ghost predicate Books(k: Shared, pending: seq<nat>, charges: seq<Charge>, witnessed: set<nat>, faulted: bool,
                        loose: set<nat>) {
    && Sound(k) && Registered(k, pending) && Queued(k, pending) && ChargedOnce(k, pending, charges)
    && ReleasedOutside(k, pending) && NoStray(k, loose)
    && (!faulted ==> AllFlushed(k, pending, charges, witnessed))
  }

  lemma LaterNoStray(k: Shared, m: Shared, loose: set<nat>)
    requires Later(k, m) && NoStray(k, loose)
    ensures NoStray(m, loose)
  {
  }

  lemma LaterBooks(k: Shared, m: Shared, pending: seq<nat>, charges: seq<Charge>, witnessed: set<nat>, faulted: bool,
                   loose: set<nat>)
    requires Books(k, pending, charges, witnessed, faulted, loose) && Later(k, m) && Sound(m)
    ensures Books(m, pending, charges, witnessed, faulted, loose)
  {
    hide Sound, Registered, Queued, NoStray, AllFlushed, Stable;
    LaterRegistered(k, m, pending);
    LaterNoStray(k, m, loose);
    LaterStable(k, m);
    if !faulted {
      FlushedStable(k, m, pending, charges, witnessed, charges, witnessed);
    }
    forall i | i in m.leases && i !in pending
      ensures Released(m.leases[i]) && (m.leases[i].phase.Done? ==> m.leases[i].counted)
    {
      ReleasedIsFinished(k, i);
      assert Evolved(k.leases[i], m.leases[i]);
    }
  }

  lemma ReleasedIsFinished(k: Shared, i: nat)
    requires Sound(k) && i in k.leases && Released(k.leases[i])
    ensures k.leases[i].finished
  {
  }

  lemma DupBooks(k: Shared, n: int, pending: seq<nat>, charges: seq<Charge>, witnessed: set<nat>, faulted: bool,
                 loose: set<nat>)
    requires Books(k, pending, charges, witnessed, faulted, loose) && n !in k.table
    ensures Books(Dup(k, n), pending, charges, witnessed, faulted, loose + {k.nextGen})
    ensures Loose(Dup(k, n), n, k.nextGen) && k.nextGen !in k.duped
    ensures forall n', g :: Loose(k, n', g) ==> Loose(Dup(k, n), n', g)
  {
    hide AllFlushed, Queued, Registered, ChargedOnce, Counted;
    DupSound(k, n);
    var m := Dup(k, n);
    SameLeasesKeeps(k, m, pending, charges, witnessed);
    assert NoStray(m, loose + {k.nextGen}) by {
      forall g | g in m.duped && g !in loose + {k.nextGen} && m.tries[g] != 1
        ensures exists i :: i in m.leases && Holds(m.leases[i], g)
      {
        var i :| i in k.leases && Holds(k.leases[i], g);
        assert Holds(m.leases[i], g);
      }
    }
    assert forall i :: i in k.leases ==> LeaseSound(k, k.leases[i]);
  }

  lemma CloseLooseBooks(k: Shared, n: int, g: nat, kept: bool, pending: seq<nat>, charges: seq<Charge>,
                        witnessed: set<nat>, faulted: bool, loose: set<nat>)
    requires Books(k, pending, charges, witnessed, faulted, loose) && Loose(k, n, g)
    ensures Books(CloseNumber(k, n, g, kept), pending, charges, witnessed, faulted, loose - {g})
    ensures forall n', h :: Loose(k, n', h) && h != g ==> Loose(CloseNumber(k, n, g, kept), n', h)
  {
    hide AllFlushed, Queued, Registered, ChargedOnce, Counted, Sound;
    CloseLooseSound(k, n, g, kept);
    var m := CloseNumber(k, n, g, kept);
    SameLeasesKeeps(k, m, pending, charges, witnessed);
    assert NoStray(m, loose - {g}) by {
      forall h | h in m.duped && h !in loose - {g} && m.tries[h] != 1
        ensures exists i :: i in m.leases && Holds(m.leases[i], h)
      {
        assert h != g;
        var i :| i in k.leases && Holds(k.leases[i], h);
        assert Holds(m.leases[i], h);
      }
    }
  }

  lemma RegisterBooks(k: Shared, x: Lease, pending: seq<nat>, charges: seq<Charge>, witnessed: set<nat>, faulted: bool)
    requires Books(k, pending, charges, witnessed, faulted, {x.fdGen, x.parentGen}) && |pending| < MAX_PENDING_SYNCS
    requires x.fd.Some? && x.parent.Some? && x.fdGen != x.parentGen
    requires Loose(k, x.fd.value, x.fdGen) && Loose(k, x.parent.value, x.parentGen)
    requires x.phase.Pending? && !x.called && !x.failed && !x.finished && !x.counted
    ensures x.fdGen !in k.leases
    ensures var m := k.(leases := k.leases[x.fdGen := x]);
            Sound(m) && Registered(m, pending + [x.fdGen]) && Settled(m, pending + [x.fdGen]) && Queued(m, pending)
            && ChargedOnce(m, pending + [x.fdGen], charges) && Counted(m) == Counted(k)
            && (!faulted ==> AllFlushed(m, pending + [x.fdGen], charges, witnessed))
  {
    hide Sound, LeaseSound;
    var i := x.fdGen;
    AdmitApart(k, x);
    AdmitSound(k, x);
    var m := k.(leases := k.leases[i := x]);
    forall g | g in m.duped && m.tries[g] != 1 ensures exists j :: j in m.leases && Holds(m.leases[j], g) {
      if Holds(x, g) {
        assert Holds(m.leases[i], g);
      } else {
        var j :| j in k.leases && Holds(k.leases[j], g);
        assert Holds(m.leases[j], g);
      }
    }
    if !faulted {
      forall j | j in m.leases && j !in pending + [i] ensures Flushed(m, charges, witnessed, j) {
        assert Flushed(k, charges, witnessed, j);
      }
    }
  }

  lemma AdmitApart(k: Shared, x: Lease)
    requires Sound(k) && x.fd.Some? && x.parent.Some? && x.fdGen != x.parentGen
    requires Loose(k, x.fd.value, x.fdGen) && Loose(k, x.parent.value, x.parentGen)
    requires x.phase.Pending? && !x.called && !x.failed && !x.finished && !x.counted
    ensures LeaseSound(k, x) && forall i :: i in k.leases ==> Apart(k.leases[i], x)
  {
  }

  /** Once nothing is registered, each duplicate was closed exactly once and each run was counted. */
  lemma AllClosed(k: Shared)
    requires Sound(k) && Settled(k, [])
    ensures forall g :: g in k.duped ==> k.tries[g] == 1
    ensures forall g :: g in k.tries ==> g in k.duped
    ensures Ran(k) == Counted(k)
  {
  }

  class FileSyncOwner {
    const progress: bool
    var pending: seq<nat>
    var closed: bool
    var k: Shared
    var charged: nat
    var fileSyncCount: nat
    ghost var charges: seq<Charge>
    ghost var witnessed: set<nat>
    ghost var faulted: bool   // some call of the owner raised

    ghost predicate Inv()
      reads this
    {
      && Sound(k) && Registered(k, pending)
      && fileSyncCount == (if progress then Min(COUNTER_CAP, |Counted(k)|) else 0)
      && charged == SumGrowth(charges)
    }

    ghost predicate Valid()
      reads this
    {
      && Inv() && Settled(k, pending) && Queued(k, pending) && ChargedOnce(k, pending, charges)
      && (!faulted ==> AllFlushed(k, pending, charges, witnessed))
    }

    ghost predicate FailureCompleted()
      reads this
    {
      exists i :: i in pending && Failure(k, i)
    }

    constructor (progress: bool)
      ensures Valid() && !closed && !faulted && pending == [] && k.leases == map[]
      ensures this.progress == progress
    {
      this.progress := progress;
      pending, closed := [], false;
      k := Shared(map[], {}, map[], 0, {}, multiset{}, false);
      charged, fileSyncCount := 0, 0;
      charges, witnessed, faulted := [], {}, false;
    }

    /** Other threads run: any finite number of worker steps and foreign opens and closes. */
    method Interfere(ghost k0: Shared)
      requires Inv() && Later(k0, k)
      modifies this`k
      ensures Inv() && Later(k0, k) && Later(old(k), k)
    {
      hide Sound, Later, Registered, Counted;
      LaterReflexive(k);
      var steps: nat := *;
      while steps > 0
        invariant Inv() && Later(k0, k) && Later(old(k), k)
      {
        ghost var before := k;
        var i: nat, n: int, clockFault: bool, error: bool := *, *, *, *;
        LaterReflexive(k);
        if i in k.leases {
          WorkSound(k, i, clockFault, error);
          k := Work(k, i, clockFault, error);
        } else if n !in k.table {
          ForeignSound(k, n);
          k := ForeignOpen(k, n);
        } else if k.table[n] !in k.duped {
          ForeignSound(k, n);
          k := ForeignClose(k, n);
        }
        Passed(k0, before, k);
        LaterTransitive(old(k), before, k);
        steps := steps - 1;
      }
    }

    lemma Passed(k0: Shared, before: Shared, after: Shared)
      requires Sound(before) && Registered(before, pending) && Later(k0, before) && Later(before, after)
      ensures Later(k0, after) && Registered(after, pending) && Counted(after) == Counted(before)
    {
      LaterTransitive(k0, before, after);
      LaterRegistered(before, after, pending);
      LaterCounted(before, after);
    }

    /** The same between two steps of a call; what is settled, queued and finished stays so. */
    method Others(ghost held: seq<nat>)
      requires Inv() && Settled(k, held)
      modifies this`k
      ensures Inv() && Settled(k, held) && Later(old(k), k) && Stable(old(k), k) && FinishedKept(old(k), k)
      ensures k.leases.Keys == old(k).leases.Keys && k.duped == old(k).duped
      ensures old(Queued(k, pending)) ==> Queued(k, pending)
    {
      hide Sound, Later, Registered, Counted, Settled, Queued, Stable, FinishedKept;
      LaterReflexive(k);
      Interfere(k);
      LaterSettled(old(k), k, held);
      LaterRegistered(old(k), k, pending);
      LaterStable(old(k), k);
      LaterKeys(old(k), k);
      LaterFinished(old(k), k);
    }

    /** The caller's tick: it may refuse at any time. */
    method Tick(ghost k0: Shared) returns (ok: bool)
      requires Inv() && Later(k0, k)
      modifies this`k
      ensures Inv() && Later(k0, k)
    {
      Interfere(k0);
      ok := *;
    }

    /** A failure that a worker completed before the call is seen; nothing else is reported. */
    method CheckFailed(ghost k0: Shared) returns (failed: bool)
      requires Inv() && Later(k0, k)
      modifies this`k
      ensures Inv() && Later(k0, k)
      ensures old(FailureCompleted()) ==> failed
      ensures failed ==> FailureCompleted()
    {
      hide Sound, Later, Evolved, Counted;
      LaterReflexive(k);
      failed := false;
      var n := 0;
      while n < |pending|
        invariant 0 <= n <= |pending|
        invariant Inv() && Later(k0, k) && Later(old(k), k)
        invariant forall j :: 0 <= j < n ==> !Failure(old(k), pending[j])
      {
        ghost var before := k;
        Interfere(k0);
        LaterTransitive(old(k), before, k);
        var i := pending[n];
        FailureStays(old(k), k, i);
        if k.leases[i].phase.Done? && k.leases[i].failed {
          assert i in pending && Failure(k, i);
          return true;
        }
        n := n + 1;
      }
    }

    // ----- FileSyncLease, from the copy thread's side -----

    method Cancel(i: nat, ghost held: seq<nat>)
      requires Inv() && i in k.leases && i in held && Settled(k, held)
      modifies this`k
      ensures Inv() && Settled(k, held) && Stable(old(k), k) && (old(Queued(k, pending)) ==> Queued(k, pending))
      ensures k.leases.Keys == old(k).leases.Keys && k.duped == old(k).duped && !k.leases[i].phase.Pending?
      ensures k.leases[i].fd == old(k).leases[i].fd && k.leases[i].parent == old(k).leases[i].parent
    {
      hide Sound, LeaseSound, Registered, Settled, Stable, Queued;
      var y := CancelLease(k.leases[i]);
      CancelSound(k, i);
      TouchKeeps(k, i, y, pending, held);
      k := k.(leases := k.leases[i := y]);
      assert Counted(k) == old(Counted(k));
    }

    /** result(): counts a finished run once and reports its error. */
    method Result(i: nat, allowCancelled: bool, ghost held: seq<nat>) returns (raised: bool)
      requires Inv() && i in k.leases && k.leases[i].finished && i in held && Settled(k, held)
      modifies this`k, this`fileSyncCount
      ensures Inv() && Settled(k, held) && Stable(old(k), k) && (old(Queued(k, pending)) ==> Queued(k, pending))
      ensures k.leases.Keys == old(k).leases.Keys && k.duped == old(k).duped
      ensures k.leases[i] == old(k).leases[i].(counted := k.leases[i].phase.Done?)
      ensures raised == (if k.leases[i].phase.Done? then k.leases[i].failed else !allowCancelled)
    {
      hide Sound, LeaseSound, Registered, Settled, Stable, Queued;
      var x := k.leases[i];
      CountSound(k, i);
      if x.phase.Cancelled? {
        LeaseUnchanged(k);
        return !allowCancelled;
      }
      var y := x.(counted := true);
      TouchKeeps(k, i, y, pending, held);
      k := k.(leases := k.leases[i := y]);
      if x.counted {
        assert Counted(k) == old(Counted(k));
      } else {
        if progress {
          fileSyncCount := Min(COUNTER_CAP, fileSyncCount + 1);
        }
        assert i !in old(Counted(k)) && Counted(k) == old(Counted(k)) + {i};
      }
      return x.failed;
    }

    lemma LeaseUnchanged(k: Shared)
      ensures Stable(k, k)
    {
    }

    /** close(): both numbers are forgotten before they are closed; errors do not stop the second close. */
    method CloseLease(i: nat) returns (ok: bool)
      requires Inv() && i in k.leases && k.leases[i].finished && i !in pending
      requires Settled(k, [i] + pending) && (k.leases[i].phase.Done? ==> k.leases[i].counted)
      modifies this`k
      ensures Inv() && Settled(k, pending) && Stable(old(k), k) && (old(Queued(k, pending)) ==> Queued(k, pending))
      ensures k.leases.Keys == old(k).leases.Keys && k.duped == old(k).duped
    {
      hide Sound, Later, Registered, Settled, Stable, Queued, Counted;
      var kept1: bool, kept2: bool := *, *;
      CloseHeldKeeps(k, i, false, kept1, pending, [i] + pending);
      k := CloseHeld(k, i, false, kept1);
      ghost var k1 := k;
      Others([i] + pending);
      StableTransitive(old(k), k1, k);
      k1 := k;
      CloseHeldKeeps(k, i, true, kept2, pending, [i] + pending);
      k := CloseHeld(k, i, true, kept2);
      StableTransitive(old(k), k1, k);
      SettleReleased(k, i, pending);
      ok := *;
    }

    lemma StableTransitive(k: Shared, m: Shared, o: Shared)
      requires Stable(k, m) && Stable(m, o)
      ensures Stable(k, o)
    {
    }

    // ----- FileSyncOwner -----

    /** The wait loop of finish_one: check_failed and tick may raise while the worker runs. */
    method WaitForHead() returns (ok: bool)
      requires Valid() && pending != []
      modifies this`k
      ensures Valid() && k.leases.Keys == old(k).leases.Keys && k.duped == old(k).duped
      ensures ok ==> k.leases[pending[0]].finished
    {
      hide Sound, Later, Settled, Queued, Counted, ChargedOnce, AllFlushed, Stable, Remaining, SumGrowth;
      var i := pending[0];
      var spins: nat := *;
      LaterReflexive(k);
      LaterKeys(k, k);
      while !k.leases[i].finished
        invariant Inv() && Later(old(k), k) && k.leases.Keys == old(k).leases.Keys && k.duped == old(k).duped
        decreases Remaining(k, i), spins
      {
        ghost var k1 := k;
        LaterReflexive(k);
        var failed := CheckFailed(k1);
        LaterTransitive(old(k), k1, k);
        LaterKeys(old(k), k);
        if failed {
          Interfered(old(k), k, pending, charges, witnessed);
          return false;
        }
        ok := Tick(k1);
        LaterTransitive(old(k), k1, k);
        LaterKeys(old(k), k);
        if !ok {
          Interfered(old(k), k, pending, charges, witnessed);
          return;
        }
        RemainingLater(k1, k, i);
        if k.leases[i].finished {
          break;
        } else if spins > 0 {
          spins := spins - 1;
        } else {
          ghost var k2 := k;
          var clockFault: bool, error: bool := *, *;
          Interfered(old(k), k, pending, charges, witnessed);
          WorkSound(k, i, clockFault, error);
          QueuedAt(k, pending, i);
          WorkProgress(k, i, clockFault, error);
          k := Work(k, i, clockFault, error);
          Passed(old(k), k2, k);
          LaterKeys(old(k), k);
          spins := *;
        }
      }
      Interfered(old(k), k, pending, charges, witnessed);
      ok := *;
    }

    lemma QueuedAt(k: Shared, pending: seq<nat>, i: nat)
      requires Queued(k, pending) && i in pending && i in k.leases
      ensures k.leases[i].phase.Pending? ==> i in k.queued
    {
    }

    lemma LaterKeys(k: Shared, m: Shared)
      requires Later(k, m)
      ensures k.leases.Keys == m.leases.Keys && k.duped == m.duped
    {
    }

    /** result, charge_blocks and the witness comparison for the oldest lease. */
    method CheckHead() returns (ok: bool)
      requires Valid() && pending != [] && k.leases[pending[0]].finished
      modifies this
      ensures pending == old(pending) && closed == old(closed) && faulted == old(faulted)
      ensures k.leases.Keys == old(k).leases.Keys && k.duped == old(k).duped
      ensures Inv() && Settled(k, pending) && Queued(k, pending) && ChargedOnce(k, pending[1..], charges)
      ensures k.leases[pending[0]].finished && (k.leases[pending[0]].phase.Done? ==> k.leases[pending[0]].counted)
      ensures ok && !faulted ==> AllFlushed(k, pending[1..], charges, witnessed)
    {
      hide Sound, Later, Settled, Queued, Counted, AllFlushed, Stable, SumGrowth;
      var i := pending[0];
      var raised := Result(i, false, pending);
      if !faulted {
        FlushedStable(old(k), k, pending, charges, witnessed, charges, witnessed);
      }
      Pause();
      if raised {
        ChargeHead(k, pending, charges, Charge(i, 0, 0));
        return false;
      }
      ok := CompareHead();
    }

    /** charge_blocks and the witness comparison, for a flush that succeeded. */
    method CompareHead() returns (ok: bool)
      requires Valid() && pending != [] && k.leases[pending[0]].finished
      requires k.leases[pending[0]].phase.Done? && k.leases[pending[0]].counted && !k.leases[pending[0]].failed
      modifies this`k, this`charged, this`charges, this`witnessed
      ensures k.leases.Keys == old(k).leases.Keys && k.duped == old(k).duped
      ensures Inv() && Settled(k, pending) && Queued(k, pending) && ChargedOnce(k, pending[1..], charges)
      ensures k.leases[pending[0]].finished && k.leases[pending[0]].counted
      ensures ok && !faulted ==> AllFlushed(k, pending[1..], charges, witnessed)
    {
      hide Sound, Later, Settled, Queued, Counted, AllFlushed, Stable, SumGrowth;
      var i := pending[0];
      var now: nat := *;
      var c := Charge(i, now, k.leases[i].blocks);
      ChargeHead(k, pending, charges, c);
      charged, charges := charged + Growth(c), charges + [c];
      var overBudget: bool := *;
      if overBudget {
        return false;
      }
      PauseChecked(pending, old(charges));
      var held: nat, named: nat := *, *;
      if !(held == k.leases[i].before == named) {
        return false;
      }
      if !faulted {
        FlushHead(k, pending, old(charges), witnessed, c);
      }
      witnessed := witnessed + {i};
      ok := *;
    }

    /** Others run while the oldest lease is charged and still registered. */
    method PauseChecked(ghost rest: seq<nat>, ghost log: seq<Charge>)
      requires Inv() && Settled(k, pending) && Queued(k, pending) && pending != [] && ChargedOnce(k, pending[1..], charges)
      modifies this`k
      ensures Inv() && Settled(k, pending) && Queued(k, pending) && ChargedOnce(k, pending[1..], charges)
      ensures k.leases.Keys == old(k).leases.Keys && k.duped == old(k).duped && FinishedKept(old(k), k)
      ensures AllFlushed(old(k), rest, log, witnessed) ==> AllFlushed(k, rest, log, witnessed)
    {
      hide Sound, Later, Settled, Queued, Counted, AllFlushed, Stable, SumGrowth, FinishedKept, ChargedOnce;
      Others(pending);
      SameKeysCharged(old(k), k, pending[1..], charges);
      if AllFlushed(old(k), rest, log, witnessed) {
        FlushedStable(old(k), k, rest, log, witnessed, log, witnessed);
      }
    }

    /** Others run while nothing is being changed. */
    method Pause()
      requires Valid()
      modifies this`k
      ensures Valid() && k.leases.Keys == old(k).leases.Keys && k.duped == old(k).duped && FinishedKept(old(k), k)
    {
      hide Sound, Later, Settled, Queued, Counted, AllFlushed, Stable, SumGrowth, FinishedKept;
      Others(pending);
      Interfered(old(k), k, pending, charges, witnessed);
    }

    method FinishOne() returns (ok: bool)
      requires Valid() && pending != []
      modifies this
      ensures Valid() && closed == old(closed)
      ensures k.leases.Keys == old(k).leases.Keys && k.duped == old(k).duped
      ensures ok ==> pending == old(pending)[1..] && faulted == old(faulted)
      ensures !ok ==> faulted && (pending == old(pending) || pending == old(pending)[1..])
    {
      hide Sound, Settled, Queued, Counted, AllFlushed, Stable, SumGrowth;
      ok := WaitForHead();
      if !ok {
        faulted := true;
        return;
      }
      Pause();
      ok := FinishHead();
    }

    /** The checks of the oldest lease, which then leaves the queue and is closed whatever they gave. */
    method FinishHead() returns (ok: bool)
      requires Valid() && pending != [] && k.leases[pending[0]].finished
      modifies this
      ensures Valid() && closed == old(closed) && pending == old(pending)[1..]
      ensures k.leases.Keys == old(k).leases.Keys && k.duped == old(k).duped
      ensures faulted == (old(faulted) || !ok)
    {
      hide Sound, Later, Settled, Queued, Counted, AllFlushed, Stable, SumGrowth;
      var i := pending[0];
      ok := CheckHead();
      PauseChecked(pending[1..], charges);
      ghost var k1 := k;
      PopHead(k, pending);
      pending := pending[1..];
      var closedWell := CloseLease(i);
      if ok && !faulted {
        FlushedStable(k1, k, pending, charges, witnessed, charges, witnessed);
      }
      SameKeysCharged(k1, k, pending, charges);
      ok := ok && closedWell;
      faulted := faulted || !ok;
    }

    /** A drain that returns normally has flushed, checked and charged every file ever admitted. */
    method Drain() returns (ok: bool)
      requires Valid()
      modifies this
      ensures Valid() && closed == old(closed)
      ensures k.leases.Keys == old(k).leases.Keys && k.duped == old(k).duped
      ensures !ok ==> faulted
      ensures ok ==> pending == [] && faulted == old(faulted)
      ensures ok && !faulted ==> forall i :: i in k.leases ==> Flushed(k, charges, witnessed, i)
    {
      hide Sound, Settled, Queued, Counted, Stable, SumGrowth;
      while pending != []
        invariant Valid() && closed == old(closed) && faulted == old(faulted)
        invariant k.leases.Keys == old(k).leases.Keys && k.duped == old(k).duped
        decreases |pending|
      {
        ok := FinishOne();
        if !ok {
          return;
        }
      }
      ok := *;
      faulted := faulted || !ok;
    }

    /** check_failed and tick, in the order of the call site. */
    method Ready(tickFirst: bool) returns (ok: bool)
      requires Valid()
      modifies this`k
      ensures Valid() && k.leases.Keys == old(k).leases.Keys && k.duped == old(k).duped
      ensures old(FailureCompleted()) ==> !ok
    {
      hide Sound, Later, Settled, Queued, Counted, AllFlushed, ChargedOnce, Registered, SumGrowth, Stable, Failure;
      LaterReflexive(k);
      ok := true;
      if tickFirst {
        ok := Tick(old(k));
        forall i | i in pending ensures Failure(old(k), i) ==> Failure(k, i) {
          FailureStays(old(k), k, i);
        }
      }
      var failed := CheckFailed(old(k));
      if !tickFirst {
        ok := Tick(old(k));
      }
      Interfered(old(k), k, pending, charges, witnessed);
      LaterKeys(old(k), k);
      ok := ok && !failed;
    }

    /** Waits for the running worker, if any, and gives both descriptors back. */
    method CleanupLease(i: nat) returns (ok: bool)
      requires Inv() && i in k.leases && i !in pending && Settled(k, [i] + pending) && Queued(k, pending)
      modifies this`k, this`fileSyncCount
      ensures Inv() && Settled(k, pending) && Queued(k, pending) && Stable(old(k), k)
      ensures k.leases.Keys == old(k).leases.Keys && k.duped == old(k).duped
    {
      hide Sound, Later, Settled, Queued, Counted, SumGrowth, Stable;
      Others([i] + pending);
      ghost var k1 := k;
      Cancel(i, [i] + pending);
      StableTransitive(old(k), k1, k);
      k1 := k;
      AwaitCancelled(i);
      StableTransitive(old(k), k1, k);
      k1 := k;
      var raised := Result(i, true, [i] + pending);
      StableTransitive(old(k), k1, k);
      k1 := k;
      Others([i] + pending);
      StableTransitive(old(k), k1, k);
      k1 := k;
      ok := CloseLease(i);
      StableTransitive(old(k), k1, k);
      ok := ok && !raised;
    }

    /** The wait of cleanup_lease: everybody may run, and the lease's own worker does until it reports. */
    method AwaitCancelled(i: nat)
      requires Inv() && i in k.leases && !k.leases[i].phase.Pending? && Settled(k, [i] + pending) && Queued(k, pending)
      modifies this`k
      ensures Inv() && Settled(k, [i] + pending) && Queued(k, pending) && Stable(old(k), k)
      ensures k.leases.Keys == old(k).leases.Keys && k.duped == old(k).duped && k.leases[i].finished
    {
      hide Sound, Later, Settled, Queued, Counted, SumGrowth, Stable, Remaining;
      LaterReflexive(k);
      Interfere(k);
      LaterKeys(old(k), k);
      while !k.leases[i].finished
        invariant Inv() && Later(old(k), k) && i in k.leases
        decreases Remaining(k, i)
      {
        ghost var k1 := k;
        var clockFault: bool, error: bool := *, *;
        PendingStays(old(k), k, i);
        WorkSound(k, i, clockFault, error);
        WorkProgress(k, i, clockFault, error);
        k := Work(k, i, clockFault, error);
        Passed(old(k), k1, k);
        ghost var k2 := k;
        LaterKeys(old(k), k);
        LaterReflexive(k);
        Interfere(k);
        RemainingLater(k2, k, i);
        LaterTransitive(old(k), k2, k);
        LaterKeys(old(k), k);
      }
      LaterSettled(old(k), k, [i] + pending);
      LaterRegistered(old(k), k, pending);
      LaterStable(old(k), k);
      LaterKeys(old(k), k);
    }

    lemma PendingStays(k: Shared, m: Shared, i: nat)
      requires Later(k, m) && i in k.leases && !k.leases[i].phase.Pending?
      ensures i in m.leases && !m.leases[i].phase.Pending?
    {
    }

    ghost predicate BooksNow(loose: set<nat>)
      reads this
    {
      && Books(k, pending, charges, witnessed, faulted, loose)
      && fileSyncCount == (if progress then Min(COUNTER_CAP, |Counted(k)|) else 0)
      && charged == SumGrowth(charges)
    }

    lemma BooksAreValid()
      ensures Valid() <==> BooksNow({})
    {
    }

    /** Other threads run while duplicates are in local variables. */
    method InterfereLoose(ghost loose: set<nat>)
      requires BooksNow(loose)
      modifies this`k
      ensures BooksNow(loose) && Later(old(k), k)
    {
      hide Sound, Later, Queued, Counted, AllFlushed, ChargedOnce, Registered, SumGrowth, ReleasedOutside, NoStray;
      LaterReflexive(k);
      Interfere(k);
      LaterBooks(old(k), k, pending, charges, witnessed, faulted, loose);
    }

    method CloseLoose(n: int, g: nat, ghost loose: set<nat>)
      requires BooksNow(loose) && Loose(k, n, g)
      modifies this`k
      ensures BooksNow(loose - {g}) && k.leases == old(k).leases && k.duped == old(k).duped
      ensures forall n', h :: Loose(old(k), n', h) && h != g ==> Loose(k, n', h)
    {
      hide Sound, Later, Queued, AllFlushed, ChargedOnce, Registered, SumGrowth, ReleasedOutside, NoStray, Loose;
      var kept: bool := *;
      CloseLooseBooks(k, n, g, kept, pending, charges, witnessed, faulted, loose);
      k := CloseNumber(k, n, g, kept);
      assert Counted(k) == Counted(old(k));
    }

    /** os.dup of both descriptors; the second failing gives the first one back. */
    method DupBoth() returns (ok: bool, n1: int, g1: nat, n2: int, g2: nat)
      requires Valid()
      modifies this`k
      ensures k.leases.Keys == old(k).leases.Keys
      ensures !ok ==> Valid()
      ensures ok ==> g1 != g2 && BooksNow({g1, g2}) && Loose(k, n1, g1) && Loose(k, n2, g2)
    {
      hide Sound, Later, Queued, AllFlushed, ChargedOnce, Registered, SumGrowth, ReleasedOutside, NoStray, Loose, Settled;
      BooksAreValid();
      var refused: bool := *;
      n1, n2, g1, g2 := *, *, 0, 0;
      if refused || n1 in k.table {
        return false, n1, g1, n2, g2;
      }
      g1 := k.nextGen;
      DupBooks(k, n1, pending, charges, witnessed, faulted, {});
      k := Dup(k, n1);
      assert Counted(k) == Counted(old(k)) && {} + {g1} == {g1};
      ghost var k1 := k;
      InterfereLoose({g1});
      LaterLoose(k1, k, n1, g1);
      LaterKeys(k1, k);
      refused := *;
      if refused || n2 in k.table {
        CloseLoose(n1, g1, {g1});
        BooksAreValid();
        return false, n1, g1, n2, g2;
      }
      g2 := k.nextGen;
      LooseDuped(k, n1, g1);
      ghost var k2 := k;
      DupBooks(k, n2, pending, charges, witnessed, faulted, {g1});
      k := Dup(k, n2);
      assert Counted(k) == Counted(k2);
      assert {g1} + {g2} == {g1, g2};
      ok := true;
    }

    lemma LooseDuped(k: Shared, n: int, g: nat)
      requires Loose(k, n, g)
      ensures g in k.duped
    {
    }

    /** The try block of submit. */
    method Admit(blocks: nat) returns (ok: bool)
      requires Valid() && |pending| < MAX_PENDING_SYNCS && !closed
      modifies this
      ensures Valid()
      ensures !ok ==> faulted && (k.duped != old(k).duped ==> closed)
      ensures ok ==> faulted == old(faulted) && !closed
      ensures ok ==> exists i :: i !in old(k).leases && k.leases.Keys == old(k).leases.Keys + {i}
                                 && k.leases[i].blocks == blocks && pending == old(pending) + [i]
    {
      hide Sound, Later, Queued, AllFlushed, ChargedOnce, Registered, SumGrowth, ReleasedOutside, NoStray, Loose,
           Settled, Books, Stable;
      var before: nat, named: nat := *, *;
      if before != named {
        faulted := true;
        return false;
      }
      var n1, g1, n2, g2;
      ok, n1, g1, n2, g2 := DupBoth();
      if !ok {
        closed, faulted := true, true;
        return;
      }
      ghost var k1 := k;
      InterfereLoose({g1, g2});
      LaterLoose(k1, k, n1, g1);
      LaterLoose(k1, k, n2, g2);
      LaterKeys(k1, k);
      var changed: bool := *;
      if changed {
        CloseLoose(n2, g2, {g1, g2});
        assert {g1, g2} - {g2} == {g1};
        k1 := k;
        InterfereLoose({g1});
        LaterLoose(k1, k, n1, g1);
        LaterKeys(k1, k);
        CloseLoose(n1, g1, {g1});
        assert {g1} - {g1} == {};
        BooksAreValid();
        closed, faulted := true, true;
        return false;
      }
      var x := Lease(Some(n1), Some(n2), g1, g2, before, blocks, Pending, false, false, false, false);
      ok := Enqueue(x);
    }

    /** pending.append and executor.submit, which may refuse before or after it queued the callable. */
    method Enqueue(x: Lease) returns (ok: bool)
      requires BooksNow({x.fdGen, x.parentGen}) && |pending| < MAX_PENDING_SYNCS && !closed
      requires x.fd.Some? && x.parent.Some? && x.fdGen != x.parentGen
      requires Loose(k, x.fd.value, x.fdGen) && Loose(k, x.parent.value, x.parentGen)
      requires x.phase.Pending? && !x.called && !x.failed && !x.finished && !x.counted
      modifies this
      ensures Valid()
      ensures !ok ==> faulted && closed
      ensures ok ==> faulted == old(faulted) && !closed && x.fdGen !in old(k).leases
                     && k.leases.Keys == old(k).leases.Keys + {x.fdGen} && k.leases[x.fdGen].blocks == x.blocks
                     && pending == old(pending) + [x.fdGen]
    {
      hide Sound, Later, AllFlushed, ChargedOnce, Registered, SumGrowth, ReleasedOutside, NoStray, Loose, Settled, Stable, Books;
      var i := x.fdGen;
      var accepted := Register(x);
      if !accepted {
        closed, faulted := true, true;
        Unregister(k, pending, i, charges);
        ghost var k1 := k;
        var clean := CleanupLease(i);
        SameKeysCharged(k1, k, pending, charges);
        return false;
      }
      pending := pending + [i];
      return true;
    }

    /** The lease is registered and its callable queued or not; a worker may claim it before the call returns or raises. */
    method Register(x: Lease) returns (ok: bool)
      requires BooksNow({x.fdGen, x.parentGen}) && |pending| < MAX_PENDING_SYNCS
      requires x.fd.Some? && x.parent.Some? && x.fdGen != x.parentGen
      requires Loose(k, x.fd.value, x.fdGen) && Loose(k, x.parent.value, x.parentGen)
      requires x.phase.Pending? && !x.called && !x.failed && !x.finished && !x.counted
      modifies this`k
      ensures Inv() && Registered(k, pending + [x.fdGen]) && Settled(k, pending + [x.fdGen]) && Queued(k, pending)
      ensures ChargedOnce(k, pending + [x.fdGen], charges)
      ensures !faulted ==> AllFlushed(k, pending + [x.fdGen], charges, witnessed)
      ensures x.fdGen !in old(k).leases && k.leases.Keys == old(k).leases.Keys + {x.fdGen} && k.leases[x.fdGen].blocks == x.blocks
      ensures ok ==> Queued(k, pending + [x.fdGen])
    {
      hide Sound, Later, AllFlushed, ChargedOnce, Registered, SumGrowth, ReleasedOutside, NoStray, Loose, Settled, Stable;
      var i := x.fdGen;
      RegisterBooks(k, x, pending, charges, witnessed, faulted);
      k := k.(leases := k.leases[i := x]);
      var queuedIt: bool, raised: bool := *, *;
      if queuedIt {
        QueueSound(k, k.queued + {i});
        QueueIrrelevant(k, k.queued + {i}, pending + [i], charges, witnessed);
        k := k.(queued := k.queued + {i});
      }
      ghost var k1 := k;
      Unregister(k, pending, i, charges);
      Others(pending + [i]);
      StableBlocks(k1, k, i);
      SameKeysCharged(k1, k, pending + [i], charges);
      LaterRegistered(k1, k, pending + [i]);
      if !faulted {
        FlushedStable(k1, k, pending + [i], charges, witnessed, charges, witnessed);
      }
      ok := queuedIt && !raised;
    }

    lemma StableBlocks(k: Shared, m: Shared, i: nat)
      requires Stable(k, m) && i in k.leases
      ensures i in m.leases && m.leases[i].blocks == k.leases[i].blocks
    {
    }

    lemma QueueIrrelevant(k: Shared, queued: set<nat>, pending: seq<nat>, charges: seq<Charge>, witnessed: set<nat>)
      requires Registered(k, pending) && Settled(k, pending) && ChargedOnce(k, pending, charges) && k.queued <= queued
      ensures var m := k.(queued := queued);
              Registered(m, pending) && Settled(m, pending) && ChargedOnce(m, pending, charges) && Counted(m) == Counted(k)
              && (AllFlushed(k, pending, charges, witnessed) ==> AllFlushed(m, pending, charges, witnessed))
    {
    }

    /** The lease whose submission failed is never part of the queue again. */
    lemma Unregister(k: Shared, pending: seq<nat>, i: nat, charges: seq<Charge>)
      requires Registered(k, pending + [i]) && Settled(k, pending + [i]) && ChargedOnce(k, pending + [i], charges)
      ensures i !in pending && i in k.leases && Registered(k, pending) && Settled(k, [i] + pending)
      ensures ChargedOnce(k, pending, charges)
    {
      assert (pending + [i])[|pending|] == i;
      assert forall j :: j in pending ==> j in pending + [i];
      assert forall j :: 0 <= j < |pending| ==> (pending + [i])[j] == pending[j];
    }

    lemma SameKeysCharged(k: Shared, m: Shared, pending: seq<nat>, charges: seq<Charge>)
      requires k.leases.Keys == m.leases.Keys && ChargedOnce(k, pending, charges)
      ensures ChargedOnce(m, pending, charges)
    {
    }

    /** submit(): at most one file is admitted, after the queue has room and no failure is known. */
    method Submit(blocks: nat) returns (ok: bool)
      requires Valid()
      modifies this
      ensures Valid()
      ensures !ok ==> faulted
      ensures ok ==> faulted == old(faulted) && !closed
      ensures old(closed) || old(FailureCompleted()) ==> !ok && k.duped == old(k).duped
      ensures !ok && k.duped != old(k).duped ==> closed
      ensures ok ==> exists i :: i !in old(k).leases && k.leases.Keys == old(k).leases.Keys + {i}
                                 && k.leases[i].blocks == blocks
                                 && pending == (if |old(pending)| == MAX_PENDING_SYNCS then old(pending)[1..] else old(pending)) + [i]
    {
      hide Sound, Settled, Queued, Counted, AllFlushed, ChargedOnce, SumGrowth;
      if closed {
        faulted := true;
        return false;
      }
      ok := Ready(false);
      if !ok {
        faulted := true;
        return;
      }
      if |pending| == MAX_PENDING_SYNCS {
        ok := FinishOne();
        if !ok {
          return;
        }
      }
      ok := Ready(true);
      if !ok {
        faulted := true;
        return;
      }
      ok := Admit(blocks);
    }

    /**
      __exit__(), after any history of calls: the queue is empty, every duplicate ever made had its
      close attempted exactly once, no number was used for another description, and every lease that
      a worker claimed was counted.
    */
    method Exit() returns (ok: bool)
      requires Valid()
      modifies this
      ensures Valid() && closed && pending == []
      ensures !k.misuse && (forall g :: g in k.duped <==> g in k.tries) && (forall g :: g in k.duped ==> k.tries[g] == 1)
      ensures fileSyncCount == (if progress then Min(COUNTER_CAP, |Ran(k)|) else 0)
      ensures k.leases.Keys == old(k).leases.Keys && k.duped == old(k).duped
      ensures faulted == (old(faulted) || old(pending) != []) && (ok ==> old(pending) == [])
    {
      hide Sound, Later, Settled, Queued, Counted, AllFlushed, SumGrowth, Stable, Ran;
      var wasDrained := pending == [];
      closed := true;
      faulted := faulted || pending != [];
      CancelAll();
      while pending != []
        invariant Valid() && closed && k.leases.Keys == old(k).leases.Keys && k.duped == old(k).duped
        invariant faulted == (old(faulted) || old(pending) != []) && (!faulted ==> pending == [])
        decreases |pending|
      {
        var i := pending[0];
        PopHead(k, pending);
        ChargeHead(k, pending, charges, Charge(i, 0, 0));
        ghost var k1 := k;
        pending := pending[1..];
        var clean := CleanupLease(i);
        SameKeysCharged(k1, k, pending, charges);
      }
      Pause();
      AllClosed(k);
      SoundNoMisuse(k);
      var shutdownFailed: bool := *;
      ok := wasDrained && !shutdownFailed;
    }

    lemma SoundNoMisuse(k: Shared)
      requires Sound(k)
      ensures !k.misuse
    {
    }

    /** Cancels what no worker has claimed yet; workers keep running meanwhile. */
    method CancelAll()
      requires Valid() && (faulted || pending == [])
      modifies this`k
      ensures Valid() && k.leases.Keys == old(k).leases.Keys && k.duped == old(k).duped
    {
      hide Sound, Later, Settled, Queued, Counted, AllFlushed, SumGrowth, Stable;
      var n := 0;
      while n < |pending|
        invariant 0 <= n <= |pending| && Valid() && k.leases.Keys == old(k).leases.Keys && k.duped == old(k).duped
      {
        ghost var k1 := k;
        LaterReflexive(k);
        Interfere(k1);
        Interfered(k1, k, pending, charges, witnessed);
        LaterKeys(k1, k);
        Cancel(pending[n], pending);
        n := n + 1;
      }
    }
  }

  /** The with-block around a copy: any sequence of submits and drains, possibly cut short, then __exit__. */
  method CopySession(progress: bool) returns (owner: FileSyncOwner, ok: bool)
    ensures owner.pending == [] && !owner.k.misuse
    ensures forall g :: g in owner.k.duped ==> owner.k.tries[g] == 1
    ensures progress ==> owner.fileSyncCount == Min(COUNTER_CAP, |Ran(owner.k)|)
    ensures ok ==> forall i :: i in owner.k.leases ==> Flushed(owner.k, owner.charges, owner.witnessed, i)
  {
    hide Sound, Settled, Queued, Counted, SumGrowth, Ran, Flushed;
    owner := new FileSyncOwner(progress);
    var calls: nat := *;
    ok := true;
    while calls > 0 && ok
      invariant owner.Valid() && (ok ==> !owner.faulted) && fresh(owner) && owner.progress == progress
    {
      var raises: bool, drain: bool, blocks: nat := *, *, *;
      if raises {
        ok := false;
      } else if drain {
        ok := owner.Drain();
      } else {
        ok := owner.Submit(blocks);
      }
      calls := calls - 1;
    }
    if ok {
      ok := owner.Drain();
    }
    var exited := owner.Exit();
    ok := ok && exited;
  }
}
