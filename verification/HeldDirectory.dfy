/**
  Held directories and the views borrowed from them, nix/home_manager_acquisition.py.

  A view holds a chain of descriptors from the root to its directory.  It opened the last part
  itself; the first part it borrows from another view, whose lifetime token it remembers together
  with those of all earlier lenders.  Descriptor numbers can be reused by the rest of the program as
  soon as they are closed, so every open gets a generation, which the code never sees: it closes
  numbers, and `misuse` is latched when a number does not stand for a descriptor that the closing
  view opened and did not close yet.  What a directory looks like to fstat and stat is left open.
*/
module HeldDirectory {

  import opened Basics

  const MAX_DEPTH: nat := 64

  datatype Link = Link(parent: Option<nat>, name: string, fd: nat)

  /** A lender as the borrower remembers it. */
  datatype Lender = Lender(id: nat, lifetime: nat, prefix: seq<Link>)

  datatype View = View(chain: seq<Link>, ownedStart: nat, closed: bool, lifetime: Option<nat>, fd: Option<nat>,
                       parent: Option<nat>, prefix: seq<Link>, owners: seq<Lender>)

  type Views = map<nat, View>

  /** Descriptor numbers and the generation behind each. */
  type Table = map<nat, nat>

  /** For every generation a view opened: which view, where, how often a close was attempted; and each view's generations. */
  datatype Books = Books(owner: map<nat, nat>, place: map<nat, nat>, attempts: map<nat, nat>, gens: map<nat, seq<nat>>)

  predicate Owners(v: View, id: nat) { exists k :: 0 <= k < |v.owners| && v.owners[k].id == id }

  /** The view and every view it borrows from, directly or not, are open. */
  predicate AllOpen(views: Views, id: nat)
    requires id in views
  {
    !views[id].closed && forall k :: 0 <= k < |views[id].owners| ==> views[id].owners[k].id in views && !views[views[id].owners[k].id].closed
  }

  /** Every number in the chain still stands for the descriptor that was put there. */
  ghost predicate Genuine(views: Views, table: Table, b: Books, id: nat)
    requires id in views
  {
    && id in b.gens && |b.gens[id]| == |views[id].chain|
    && forall i :: 0 <= i < |views[id].chain| ==> views[id].chain[i].fd in table && table[views[id].chain[i].fd] == b.gens[id][i]
  }

  // ----- What holds throughout -----

  /** A generation whose close was not attempted is where it was put; `pending` are those of a view that is closing. */
  ghost predicate Alive(views: Views, table: Table, b: Books, pending: set<nat>) {
    && b.place.Keys == b.owner.Keys && b.attempts.Keys == b.owner.Keys
    && (forall g :: g in b.owner ==> b.owner[g] in views && b.attempts[g] <= 1)
    && (forall g :: g in b.owner ==> (b.attempts[g] == 0 <==> !views[b.owner[g]].closed || g in pending))
    && (forall g :: g in b.owner && b.attempts[g] == 0 ==> b.place[g] in table && table[b.place[g]] == g)
  }

  ghost predicate ChainOk(views: Views, b: Books, id: nat)
    requires id in views
  {
    var v := views[id];
    && id in b.gens && |b.gens[id]| == |v.chain| && v.ownedStart <= |v.chain|
    && (forall i :: 0 <= i < |v.chain| ==> b.gens[id][i] in b.owner && b.gens[id][i] in b.place && v.chain[i].fd == b.place[b.gens[id][i]])
    && (forall i :: v.ownedStart <= i < |v.chain| ==> b.owner[b.gens[id][i]] == id)
    && (forall i :: 0 <= i < v.ownedStart ==> Owners(v, b.owner[b.gens[id][i]]))
    && (forall i, j :: 0 <= i < j < |v.chain| ==> b.gens[id][i] != b.gens[id][j])
    && (forall g :: g in b.owner && b.owner[g] == id ==> exists i :: v.ownedStart <= i < |v.chain| && b.gens[id][i] == g)
  }

  /** A lender that is still open is as the borrower remembers it. */
  ghost predicate LendersOk(views: Views, id: nat)
    requires id in views
  {
    forall k :: 0 <= k < |views[id].owners| ==>
      var l := views[id].owners[k];
      && l.id in views && l.id != id && l.prefix != []
      && (!views[l.id].closed ==> views[l.id].lifetime == Some(l.lifetime) && views[l.id].chain == l.prefix && views[l.id].fd == Some(l.prefix[|l.prefix| - 1].fd))
  }

  /** What close() leaves of a view. */
  function Shut(v: View): View { View([], v.ownedStart, true, None, v.fd, None, [], []) }

  ghost predicate ViewOk(views: Views, b: Books, id: nat)
    requires id in views
  {
    var v := views[id];
    && (v.closed ==> v == Shut(v))
    && (!v.closed ==>
          && v.lifetime.Some? && ChainOk(views, b, id) && LendersOk(views, id) && v.prefix == v.chain[..v.ownedStart]
          && (v.fd.Some? ==> v.chain != [] && v.fd == Some(v.chain[|v.chain| - 1].fd))
          && (v.parent.Some? ==> ParentOk(views, v)))
  }

  /** The last lender is the parent, and the ones before are those the parent borrows from. */
  ghost predicate ParentOk(views: Views, v: View)
    requires v.parent.Some?
  {
    && v.owners != [] && v.owners[|v.owners| - 1].id == v.parent.value && v.parent.value in views
    && (!views[v.parent.value].closed ==> views[v.parent.value].owners == v.owners[..|v.owners| - 1])
  }

  ghost predicate Sound(views: Views, table: Table, b: Books, nextGen: nat, pending: set<nat>) {
    && Alive(views, table, b, pending)
    && (forall id :: id in views ==> ViewOk(views, b, id))
    && (forall g :: g in b.owner ==> g < nextGen) && (forall fd :: fd in table ==> table[fd] < nextGen)
    && (forall x, y :: x in table && y in table && table[x] == table[y] ==> x == y)
  }

  /** While the whole borrow chain is open, its numbers are genuine. */
  lemma OpenIsGenuine(views: Views, table: Table, b: Books, nextGen: nat, pending: set<nat>, id: nat)
    requires Sound(views, table, b, nextGen, pending) && id in views && AllOpen(views, id)
    ensures Genuine(views, table, b, id)
  {
  }

  /** Some view of the borrow chain has closed. */
  predicate Dead(views: Views, id: nat) { id in views && !AllOpen(views, id) }

  /** Between two states views only open and close, and what a view borrowed it keeps until it closes. */
  ghost predicate Later(before: Views, after: Views) {
    forall id :: id in before ==>
      id in after && (before[id].closed ==> after[id].closed) && (!after[id].closed ==> after[id].owners == before[id].owners)
  }

  /** A dead view stays dead, whatever is opened afterwards. */
  lemma DeadForever(before: Views, after: Views, id: nat)
    requires Later(before, after) && Dead(before, id)
    requires forall k :: 0 <= k < |before[id].owners| ==> before[id].owners[k].id in before
    ensures Dead(after, id)
  {
  }

  lemma LaterTransitive(a: Views, b: Views, c: Views)
    requires Later(a, b) && Later(b, c)
    ensures Later(a, c)
  {
  }

  // ----- Steps -----

  lemma OthersOpen(views: Views, table: Table, b: Books, nextGen: nat, pending: set<nat>, fd: nat)
    requires Sound(views, table, b, nextGen, pending) && fd !in table
    ensures Sound(views, table[fd := nextGen], b, nextGen + 1, pending)
  {
    hide ViewOk;
  }

  lemma OthersClose(views: Views, table: Table, b: Books, nextGen: nat, pending: set<nat>, fd: nat)
    requires Sound(views, table, b, nextGen, pending) && fd in table && table[fd] !in b.owner
    ensures Sound(views, table - {fd}, b, nextGen, pending)
  {
    hide ViewOk;
  }

  function Fresh(id: nat): View { View([], 0, false, Some(id), None, None, [], []) }

  function Borrowed(id: nat, p: nat, v: View): View
    requires v.lifetime.Some?
  {
    View(v.chain, |v.chain|, false, Some(id), None, Some(p), v.chain, v.owners + [Lender(p, v.lifetime.value, v.chain)])
  }

  /** Another view, and nothing else changed. */
  lemma OthersUnmoved(views: Views, b: Books, id: nat, v: View, gens: seq<nat>, x: nat)
    requires id !in views && x in views && ViewOk(views, b, x)
    ensures ViewOk(views[id := v], b.(gens := b.gens[id := gens]), x)
  {
  }

  lemma AddRoot(views: Views, table: Table, b: Books, nextGen: nat, id: nat)
    requires Sound(views, table, b, nextGen, {}) && id !in views
    ensures Sound(views[id := Fresh(id)], table, b.(gens := b.gens[id := []]), nextGen, {})
  {
    hide ViewOk;
    forall x | x in views ensures ViewOk(views[id := Fresh(id)], b.(gens := b.gens[id := []]), x) {
      OthersUnmoved(views, b, id, Fresh(id), [], x);
    }
    RootOk(views, table, b, id);
  }

  lemma RootOk(views: Views, table: Table, b: Books, id: nat)
    requires Alive(views, table, b, {}) && id !in views
    ensures ViewOk(views[id := Fresh(id)], b.(gens := b.gens[id := []]), id)
  {
  }

  lemma BorrowedOk(views: Views, table: Table, b: Books, id: nat, p: nat)
    requires Alive(views, table, b, {}) && id !in views && p in views && ViewOk(views, b, p) && !views[p].closed && views[p].fd.Some?
    ensures ViewOk(views[id := Borrowed(id, p, views[p])], b.(gens := b.gens[id := b.gens[p]]), id)
  {
    var v := Borrowed(id, p, views[p]);
    var after, c := views[id := v], b.(gens := b.gens[id := b.gens[p]]);
    forall i | 0 <= i < |v.chain| ensures Owners(v, c.owner[c.gens[id][i]]) {
      if i < views[p].ownedStart {
        var k :| 0 <= k < |views[p].owners| && views[p].owners[k].id == b.owner[b.gens[p][i]];
        assert v.owners[k] == views[p].owners[k];
      } else {
        assert v.owners[|v.owners| - 1].id == p;
      }
    }
    forall k | 0 <= k < |v.owners| ensures v.owners[k].id in after && v.owners[k].id != id && v.owners[k].prefix != [] {
      assert k < |views[p].owners| ==> v.owners[k] == views[p].owners[k];
    }
    assert LendersOk(after, id);
    assert v.chain[..v.ownedStart] == v.chain;
  }

  lemma AddBorrowed(views: Views, table: Table, b: Books, nextGen: nat, id: nat, p: nat)
    requires Sound(views, table, b, nextGen, {}) && id !in views && p in views && !views[p].closed && views[p].fd.Some?
    ensures views[p].lifetime.Some?
    ensures p in b.gens && Sound(views[id := Borrowed(id, p, views[p])], table, b.(gens := b.gens[id := b.gens[p]]), nextGen, {})
  {
    hide ViewOk, Alive;
    assert ViewOk(views, b, p);
    assert views[p].lifetime.Some? && p in b.gens by { OpenBooks(views, b, p); }
    var v := Borrowed(id, p, views[p]);
    BorrowedOk(views, table, b, id, p);
    forall x | x in views ensures ViewOk(views[id := v], b.(gens := b.gens[id := b.gens[p]]), x) {
      OthersUnmoved(views, b, id, v, b.gens[p], x);
    }
    MoreAlive(views, table, b, id, v, b.gens[p]);
  }

  lemma MoreAlive(views: Views, table: Table, b: Books, id: nat, v: View, gens: seq<nat>)
    requires Alive(views, table, b, {}) && id !in views
    ensures Alive(views[id := v], table, b.(gens := b.gens[id := gens]), {})
  {
  }

  /** The next descriptor of a view that is being set up. */
  function Linked(v: View, link: Link): View { v.(chain := v.chain + [link]) }

  function BookOpen(b: Books, id: nat, g: nat, fd: nat): Books
    requires id in b.gens
  {
    Books(b.owner[g := id], b.place[g := fd], b.attempts[g := 0], b.gens[id := b.gens[id] + [g]])
  }

  lemma LinkOthers(views: Views, b: Books, id: nat, link: Link, g: nat, x: nat)
    requires id in views && id in b.gens && g !in b.owner && g !in b.place && !views[id].closed && views[id].fd.None?
    requires x in views && x != id && ViewOk(views, b, x)
    ensures ViewOk(views[id := Linked(views[id], link)], BookOpen(b, id, g, link.fd), x)
  {
  }

  lemma LinkChain(views: Views, b: Books, id: nat, link: Link, g: nat)
    requires id in views && g !in b.owner && g !in b.place && ChainOk(views, b, id)
    ensures ChainOk(views[id := Linked(views[id], link)], BookOpen(b, id, g, link.fd), id)
  {
    var v, w := views[id], Linked(views[id], link);
    var c := BookOpen(b, id, g, link.fd);
    assert c.gens[id] == b.gens[id] + [g];
    forall x | x in c.owner && c.owner[x] == id ensures exists i :: w.ownedStart <= i < |w.chain| && c.gens[id][i] == x {
      if x == g {
        assert c.gens[id][|v.chain|] == g;
      } else {
        var i :| v.ownedStart <= i < |v.chain| && b.gens[id][i] == x;
        assert c.gens[id][i] == x;
      }
    }
    forall i | 0 <= i < w.ownedStart ensures Owners(w, c.owner[c.gens[id][i]]) {
      assert Owners(v, b.owner[b.gens[id][i]]);
    }
  }

  lemma LinkSelf(views: Views, b: Books, id: nat, link: Link, g: nat)
    requires id in views && g !in b.owner && g !in b.place && !views[id].closed && views[id].fd.None? && ViewOk(views, b, id)
    ensures id in b.gens && ViewOk(views[id := Linked(views[id], link)], BookOpen(b, id, g, link.fd), id)
  {
    var v, w := views[id], Linked(views[id], link);
    LinkChain(views, b, id, link, g);
    assert w.ownedStart <= |v.chain| && w.chain[..w.ownedStart] == v.chain[..v.ownedStart];
    hide ChainOk;
    assert LendersOk(views[id := w], id);
  }

  lemma LinkAlive(views: Views, table: Table, b: Books, nextGen: nat, id: nat, link: Link)
    requires Sound(views, table, b, nextGen, {}) && id in views && id in b.gens && !views[id].closed && link.fd !in table
    ensures Alive(views[id := Linked(views[id], link)], table[link.fd := nextGen], BookOpen(b, id, nextGen, link.fd), {})
  {
    hide ViewOk;
  }

  /** A new number for a new generation. */
  ghost predicate Numbers(table: Table, nextGen: nat) {
    && (forall fd :: fd in table ==> table[fd] < nextGen)
    && (forall x, y :: x in table && y in table && table[x] == table[y] ==> x == y)
  }

  lemma NumbersMore(table: Table, nextGen: nat, fd: nat)
    requires Numbers(table, nextGen) && fd !in table
    ensures Numbers(table[fd := nextGen], nextGen + 1)
  {
  }

  lemma SoundParts(views: Views, table: Table, b: Books, nextGen: nat, pending: set<nat>)
    ensures Sound(views, table, b, nextGen, pending) <==>
              && Alive(views, table, b, pending) && (forall id :: id in views ==> ViewOk(views, b, id))
              && (forall g :: g in b.owner ==> g < nextGen) && Numbers(table, nextGen)
  {
    hide ViewOk, Alive;
  }

  lemma AddLink(views: Views, table: Table, b: Books, nextGen: nat, id: nat, link: Link)
    requires Sound(views, table, b, nextGen, {}) && id in views && !views[id].closed && views[id].fd.None? && link.fd !in table
    ensures id in b.gens
    ensures Sound(views[id := Linked(views[id], link)], table[link.fd := nextGen], BookOpen(b, id, nextGen, link.fd), nextGen + 1, {})
  {
    SoundParts(views, table, b, nextGen, {});
    NotBooked(views, table, b, nextGen);
    LinkSelf(views, b, id, link, nextGen);
    LinkAlive(views, table, b, nextGen, id, link);
    NumbersMore(table, nextGen, link.fd);
    hide ViewOk, Alive, Sound, Numbers;
    forall x | x in views && x != id ensures ViewOk(views[id := Linked(views[id], link)], BookOpen(b, id, nextGen, link.fd), x) {
      LinkOthers(views, b, id, link, nextGen, x);
    }
    SoundParts(views[id := Linked(views[id], link)], table[link.fd := nextGen], BookOpen(b, id, nextGen, link.fd), nextGen + 1, {});
  }

  lemma NotBooked(views: Views, table: Table, b: Books, nextGen: nat)
    requires Sound(views, table, b, nextGen, {})
    ensures nextGen !in b.owner && nextGen !in b.place
  {
    hide ViewOk;
  }

  function Ready(v: View): View
    requires v.chain != []
  {
    v.(fd := Some(v.chain[|v.chain| - 1].fd))
  }

  lemma ReadyKeeps(views: Views, b: Books, id: nat, x: nat)
    requires id in views && x in views && views[id].chain != [] && !views[id].closed && views[id].fd.None? && ViewOk(views, b, x)
    ensures ViewOk(views[id := Ready(views[id])], b, x)
  {
    if !views[x].closed {
      ReadyChain(views, b, id, x);
      ReadyLenders(views, id, x);
      hide ChainOk, LendersOk;
    }
  }

  lemma ReadyChain(views: Views, b: Books, id: nat, x: nat)
    requires id in views && x in views && views[id].chain != [] && ChainOk(views, b, x)
    ensures ChainOk(views[id := Ready(views[id])], b, x)
  {
    forall g ensures Owners(views[id := Ready(views[id])][x], g) <==> Owners(views[x], g) {
    }
    hide Owners;
  }

  lemma ReadyLenders(views: Views, id: nat, x: nat)
    requires id in views && x in views && views[id].chain != [] && !views[id].closed && views[id].fd.None? && LendersOk(views, x)
    ensures LendersOk(views[id := Ready(views[id])], x)
  {
  }

  lemma Finished(views: Views, table: Table, b: Books, nextGen: nat, id: nat)
    requires Sound(views, table, b, nextGen, {}) && id in views && !views[id].closed && views[id].fd.None? && views[id].chain != []
    ensures Sound(views[id := Ready(views[id])], table, b, nextGen, {})
  {
    hide ViewOk;
    forall x | x in views ensures ViewOk(views[id := Ready(views[id])], b, x) {
      ReadyKeeps(views, b, id, x);
    }
  }

  function Set(s: seq<nat>): set<nat> { set g | g in s }

  /** The generations that closing a view must close, last first. */
  function Closing(b: Books, id: nat, v: View): seq<nat>
    requires id in b.gens && v.ownedStart <= |b.gens[id]|
  {
    b.gens[id][v.ownedStart..]
  }

  lemma ShutOthers(views: Views, b: Books, id: nat, x: nat)
    requires id in views && x in views && x != id && ViewOk(views, b, x)
    ensures ViewOk(views[id := Shut(views[id])], b, x)
  {
    var after := views[id := Shut(views[id])];
    assert !views[x].closed ==> ChainOk(after, b, x) && LendersOk(after, x);
  }

  lemma ClosingIs(views: Views, b: Books, id: nat, g: nat)
    requires id in views && !views[id].closed && ViewOk(views, b, id) && g in b.owner
    ensures id in b.gens && views[id].ownedStart <= |b.gens[id]|
    ensures g in Closing(b, id, views[id]) <==> b.owner[g] == id
  {
  }

  lemma MarkClosed(views: Views, table: Table, b: Books, nextGen: nat, id: nat)
    requires Sound(views, table, b, nextGen, {}) && id in views && !views[id].closed
    ensures id in b.gens && views[id].ownedStart <= |b.gens[id]|
    ensures Sound(views[id := Shut(views[id])], table, b, nextGen, Set(Closing(b, id, views[id])))
  {
    hide ViewOk, Alive;
    assert ViewOk(views, b, id);
    var after := views[id := Shut(views[id])];
    forall x | x in views ensures ViewOk(after, b, x) {
      if x != id {
        ShutOthers(views, b, id, x);
      } else {
        ShutSelf(views, b, id);
      }
    }
    assert id in b.gens && views[id].ownedStart <= |b.gens[id]| by { OpenBooks(views, b, id); }
    forall g | g in b.owner ensures g in Closing(b, id, views[id]) <==> b.owner[g] == id {
      ClosingIs(views, b, id, g);
    }
    ShutAlive(views, table, b, id, Set(Closing(b, id, views[id])));
  }

  lemma ShutAlive(views: Views, table: Table, b: Books, id: nat, pending: set<nat>)
    requires Alive(views, table, b, {}) && id in views && !views[id].closed
    requires forall g :: g in b.owner ==> (g in pending <==> b.owner[g] == id)
    ensures Alive(views[id := Shut(views[id])], table, b, pending)
  {
  }

  lemma ShutSelf(views: Views, b: Books, id: nat)
    requires id in views
    ensures ViewOk(views[id := Shut(views[id])], b, id)
  {
  }

  lemma OpenBooks(views: Views, b: Books, id: nat)
    requires id in views && !views[id].closed && ViewOk(views, b, id)
    ensures views[id].lifetime.Some? && id in b.gens && views[id].ownedStart <= |b.gens[id]| == |views[id].chain|
  {
  }

  function BookClose(b: Books, g: nat): Books
    requires g in b.attempts
  {
    b.(attempts := b.attempts[g := b.attempts[g] + 1])
  }

  lemma CloseOne(views: Views, table: Table, b: Books, nextGen: nat, pending: set<nat>, g: nat, kept: bool)
    requires Sound(views, table, b, nextGen, pending) && g in pending && g in b.owner && views[b.owner[g]].closed
    ensures g in b.attempts && b.attempts[g] == 0 && g in b.place && b.place[g] in table && table[b.place[g]] == g
    ensures Sound(views, if kept then table else table - {b.place[g]}, BookClose(b, g), nextGen, pending - {g})
  {
    SoundParts(views, table, b, nextGen, pending);
    CloseAlive(views, table, b, pending, g, kept);
    hide ViewOk, Alive, Sound;
    forall x | x in views ensures ViewOk(views, BookClose(b, g), x) {
      CloseView(views, b, g, x);
    }
    SoundParts(views, if kept then table else table - {b.place[g]}, BookClose(b, g), nextGen, pending - {g});
  }

  lemma CloseAlive(views: Views, table: Table, b: Books, pending: set<nat>, g: nat, kept: bool)
    requires Alive(views, table, b, pending) && g in pending && g in b.owner && views[b.owner[g]].closed
    ensures g in b.attempts && b.attempts[g] == 0 && g in b.place && b.place[g] in table && table[b.place[g]] == g
    ensures Alive(views, if kept then table else table - {b.place[g]}, BookClose(b, g), pending - {g})
  {
  }

  lemma CloseView(views: Views, b: Books, g: nat, x: nat)
    requires x in views && g in b.attempts && ViewOk(views, b, x)
    ensures ViewOk(views, BookClose(b, g), x)
  {
    if !views[x].closed {
      assert ChainOk(views, BookClose(b, g), x);
      hide ChainOk, LendersOk;
    }
  }

  /** The numbers that closing a view closes are those of its generations. */
  lemma OwnedNumbers(views: Views, table: Table, b: Books, nextGen: nat, id: nat)
    requires Sound(views, table, b, nextGen, {}) && id in views && !views[id].closed && id in b.gens && views[id].ownedStart <= |b.gens[id]|
    ensures views[id].ownedStart <= |views[id].chain| == |b.gens[id]|
    ensures var owned, closing := views[id].chain[views[id].ownedStart..], Closing(b, id, views[id]);
            forall i :: 0 <= i < |closing| ==> closing[i] in b.place && owned[i].fd == b.place[closing[i]]
  {
    assert ViewOk(views, b, id);
  }

  // ----- The views of a process -----

  /** Only these generations were closed in between. */
  ghost predicate ClosedOnly(before: Books, after: Books, id: nat) {
    forall g :: g in before.owner ==>
      && g in after.owner && after.owner[g] == before.owner[g] && g in before.attempts && g in after.attempts
      && (before.owner[g] != id ==> after.attempts[g] == before.attempts[g])
  }

  /** The lender is open and is the same as when it was borrowed from. */
  predicate AsRemembered(views: Views, l: Lender) {
    && l.id in views && !views[l.id].closed && views[l.id].lifetime == Some(l.lifetime)
    && views[l.id].chain == l.prefix && l.prefix != [] && views[l.id].fd == Some(l.prefix[|l.prefix| - 1].fd)
  }

  lemma ViewsOk(views: Views, table: Table, b: Books, nextGen: nat, id: nat)
    requires Sound(views, table, b, nextGen, {}) && id in views
    ensures ViewOk(views, b, id)
  {
  }

  lemma Remembered(views: Views, b: Books, id: nat)
    requires id in views && ViewOk(views, b, id)
    ensures var v := views[id];
            && (!v.closed ==> v.lifetime.Some? && v.chain[..v.ownedStart] == v.prefix)
            && (v.fd.Some? && !v.closed ==> v.chain != [] && v.fd == Some(v.chain[|v.chain| - 1].fd))
            && forall k :: 0 <= k < |v.owners| ==> v.owners[k].id in views && (AsRemembered(views, v.owners[k]) <==> !views[v.owners[k].id].closed)
    ensures !views[id].closed ==> views[id].ownedStart <= |views[id].chain|
  {
  }

  lemma ClosedNone(views: Views, table: Table, b: Books, nextGen: nat, id: nat)
    requires Sound(views, table, b, nextGen, {})
    ensures ClosedOnly(b, b, id)
  {
  }

  ghost function Tries(m: map<nat, nat>, g: nat): nat { if g in m then m[g] else 0 }

  class Directories {
    var views: Views
    var nextId: nat
    var table: Table
    /** The kernel's side: the next generation, and the books of this model. */
    var nextGen: nat
    var books: Books
    /** Close attempts on descriptors that were opened but never became part of a view. */
    ghost var loose: map<nat, nat>
    ghost var misuse: bool

    ghost predicate Holds(pending: set<nat>)
      reads this
    {
      && Sound(views, table, books, nextGen, pending) && (forall id :: id in views ==> id < nextId)
      && !misuse && (forall g :: g in loose ==> loose[g] == 1 && g < nextGen)
    }

    ghost predicate Valid()
      reads this
    {
      Holds({})
    }

    constructor (table: Table, nextGen: nat)
      requires forall fd :: fd in table ==> table[fd] < nextGen
      requires forall x, y :: x in table && y in table && table[x] == table[y] ==> x == y
      ensures Valid() && views == map[]
    {
      views, nextId, this.table, this.nextGen := map[], 0, table, nextGen;
      books := Books(map[], map[], map[], map[]);
      loose, misuse := map[], false;
    }

    /** The rest of the program opens descriptors on any free numbers and closes its own; `mine` is in a local variable here. */
    method Others(ghost pending: set<nat>, mine: Option<nat>)
      requires Holds(pending) && (mine.Some? ==> mine.value in table)
      modifies `table, `nextGen
      ensures Holds(pending) && nextGen >= old(nextGen) && (mine.Some? ==> mine.value in table && table[mine.value] == old(table[mine.value]))
    {
      hide Sound;
      var steps: nat := *;
      while steps > 0
        invariant Holds(pending) && nextGen >= old(nextGen) && (mine.Some? ==> mine.value in table && table[mine.value] == old(table[mine.value]))
      {
        var fd: nat := *;
        if fd !in table {
          OthersOpen(views, table, books, nextGen, pending, fd);
          table, nextGen := table[fd := nextGen], nextGen + 1;
        } else if table[fd] !in books.owner && mine != Some(fd) {
          OthersClose(views, table, books, nextGen, pending, fd);
          table := table - {fd};
        }
        steps := steps - 1;
      }
    }

    /** The ownership part of check_held: own state, frozen prefix, every lender's lifetime and chain. */
    method CheckLifetimes(id: nat) returns (ok: bool)
      requires Valid() && id in views
      ensures ok <==> AllOpen(views, id) && views[id].fd.Some?
    {
      hide Sound, ViewOk;
      var v := views[id];
      assert ViewOk(views, books, id) by { ViewsOk(views, table, books, nextGen, id); }
      Remembered(views, books, id);
      if v.closed || v.lifetime.None? || v.chain == [] || v.fd != Some(v.chain[|v.chain| - 1].fd) {
        return false;
      }
      if v.parent.Some? && v.chain[..v.ownedStart] != v.prefix {
        return false;
      }
      for k := 0 to |v.owners|
        invariant forall j :: 0 <= j < k ==> !views[v.owners[j].id].closed
      {
        if !AsRemembered(views, v.owners[k]) {
          return false;
        }
      }
      return true;
    }

    /** check(): it passes only while the whole borrow chain is open and every number is genuine. */
    method Check(id: nat) returns (ok: bool)
      requires Valid() && id in views
      ensures ok ==> AllOpen(views, id) && views[id].fd.Some? && Genuine(views, table, books, id)
      ensures Dead(views, id) ==> !ok
    {
      ok := CheckLifetimes(id);
      if ok {
        OpenIsGenuine(views, table, books, nextGen, {}, id);
        var custody: bool := *;
        ok := custody;
      }
    }

    /** check_copy_anchors: a genuine borrowed view answers for the view it borrows from. */
    method CheckCopyAnchors(root: nat, staging: nat) returns (ok: bool)
      requires Valid() && root in views && staging in views
      ensures ok ==> AllOpen(views, root) && Genuine(views, table, books, root)
      ensures ok ==> AllOpen(views, staging) && Genuine(views, table, books, staging)
    {
      hide Sound, Genuine;
      var s := views[staging];
      if s.parent == Some(root) && s.ownedStart == |views[root].chain| && s.prefix == views[root].chain {
        ok := Check(staging);
        if ok {
          ViewsOk(views, table, books, nextGen, staging);
          ParentOpen(views, books, root, staging);
          OpenIsGenuine(views, table, books, nextGen, {}, root);
        }
      } else {
        ok := Check(root);
        if ok {
          ok := Check(staging);
        }
      }
    }

    /** close(): every descriptor the view opened, once, and no other. */
    method Close(id: nat)
      requires Valid() && id in views
      modifies this
      ensures Valid() && views == old(views)[id := Shut(old(views[id]))] && nextId == old(nextId)
      ensures ClosedOnly(old(books), books, id) && Later(old(views), views)
      ensures forall g :: g in books.owner && books.owner[g] == id ==> g in books.attempts && books.attempts[g] == 1
      ensures forall x :: x in views && Owners(views[x], id) ==> Dead(views, x)
    {
      hide Sound, AllOpen;
      if views[id].closed {
        ClosedAlready(views, table, books, nextGen, id);
        DeadBorrowers(views, id);
        return;
      }
      MarkClosed(views, table, books, nextGen, id);
      OwnedNumbers(views, table, books, nextGen, id);
      var owned := views[id].chain[views[id].ownedStart..];
      ghost var closing := Closing(books, id, views[id]);
      assert forall i, j :: 0 <= i < j < |closing| ==> closing[i] != closing[j] by { ClosingDistinct(views, table, books, nextGen, id); }
      assert forall g :: g in closing ==> g in books.owner && books.owner[g] == id by { ClosingOwned(views, table, books, nextGen, id); }
      views := views[id := Shut(views[id])];
      ClosedNone(old(views), table, books, nextGen, id);
      assert closing[..|owned|] == closing;
      CloseNumbers(id, owned, closing);
      AttemptedOnce(views, table, books, nextGen, id);
      DeadBorrowers(views, id);
    }

    /** os.close of each number, the last first; a number is released or, on some errors, kept. */
    method CloseNumbers(id: nat, owned: seq<Link>, ghost closing: seq<nat>)
      requires |owned| == |closing| && Holds(Set(closing)) && id in views && views[id].closed && ClosedOnly(books, books, id)
      requires forall i, j :: 0 <= i < j < |closing| ==> closing[i] != closing[j]
      requires forall g :: g in closing ==> g in books.owner && books.owner[g] == id
      requires forall i :: 0 <= i < |closing| ==> closing[i] in books.place && owned[i].fd == books.place[closing[i]]
      modifies `table, `nextGen, `books, `misuse
      ensures Valid() && ClosedOnly(old(books), books, id)
    {
      hide Sound, ClosedOnly;
      var n := |owned|;
      assert closing[..n] == closing;
      while n > 0
        invariant 0 <= n <= |closing| && Holds(Set(closing[..n]))
        invariant books.owner == old(books).owner && books.place == old(books).place && ClosedOnly(old(books), books, id)
      {
        Others(Set(closing[..n]), None);
        n := n - 1;
        var fd: nat, kept: bool := owned[n].fd, *;
        ghost var g := closing[n];
        assert g in closing && closing[..n + 1] == closing[..n] + [g];
        assert Set(closing[..n + 1]) - {g} == Set(closing[..n]);
        CloseOne(views, table, books, nextGen, Set(closing[..n + 1]), g, kept);
        misuse := misuse || !Right(fd, id);
        ghost var before := books;
        if fd in table && table[fd] in books.attempts {
          books := BookClose(books, table[fd]);
        }
        table := if kept then table else table - {fd};
        ClosedStep(old(books), before, books, g, id);
      }
      assert Set(closing[..0]) == {};
    }

    /** The number stands for a descriptor that this view opened and whose close was not attempted. */
    ghost predicate Right(fd: nat, id: nat)
      reads this
    {
      && fd in table && table[fd] in books.owner && books.owner[table[fd]] == id
      && table[fd] in books.attempts && books.attempts[table[fd]] == 0
    }

    /** One more descriptor for a view that is being set up; the open may fail, or the fstat behind it. */
    method Descend(id: nat, name: string) returns (ok: bool)
      requires Valid() && id in views && !views[id].closed && views[id].fd.None?
      modifies `views, `table, `nextGen, `books, `loose, `misuse
      ensures Valid() && Later(old(views), views) && views.Keys == old(views).Keys && ClosedOnly(old(books), books, id)
      ensures id in views && !views[id].closed && views[id].fd.None? && (ok ==> views[id].chain != [])
    {
      hide Sound;
      ClosedNone(views, table, books, nextGen, id);
      Others({}, None);
      var fd: nat := *;
      var fail: bool, unseen: bool := *, *;
      if fail || fd in table {
        return false;
      }
      if unseen {
        CloseUnseen(fd);
        return false;
      }
      var v := views[id];
      var link := Link(if v.chain == [] then None else Some(v.chain[|v.chain| - 1].fd), name, fd);
      AddLink(views, table, books, nextGen, id, link);
      OpenedOnly(views, table, books, nextGen, id, fd);
      table, books, views := table[fd := nextGen], BookOpen(books, id, nextGen, fd), views[id := Linked(v, link)];
      nextGen := nextGen + 1;
      return true;
    }

    /** The open succeeded and the fstat did not: the number is closed at once and never remembered. */
    method CloseUnseen(fd: nat)
      requires Valid() && fd !in table
      modifies `table, `nextGen, `loose, `misuse
      ensures Valid() && loose == old(loose)[old(nextGen) := 1] && old(nextGen) !in old(loose)
    {
      hide Sound;
      ghost var g := nextGen;
      OthersOpen(views, table, books, nextGen, {}, fd);
      NotBooked(views, table, books, nextGen);
      table, nextGen := table[fd := nextGen], nextGen + 1;
      Others({}, Some(fd));
      misuse := misuse || fd !in table || table[fd] != g;
      OthersClose(views, table, books, nextGen, {}, fd);
      table := table - {fd};
      loose := loose[g := Tries(loose, g) + 1];
    }

    /** A new view, with what it borrows and nothing of its own. */
    method Begin(parent: Option<nat>) returns (r: Option<nat>)
      requires Valid() && (parent.Some? ==> parent.value in views)
      modifies `views, `books, `nextId
      ensures Valid() && Later(old(views), views)
      ensures r.None? ==> views == old(views) && books == old(books)
      ensures r.Some? ==> r.value == old(nextId) && r.value !in old(views) && views.Keys == old(views).Keys + {r.value}
                          && !views[r.value].closed && views[r.value].fd.None?
    {
      hide Sound, AllOpen;
      var id := nextId;
      if parent.None? {
        AddRoot(views, table, books, nextGen, id);
        views, books, nextId := views[id := Fresh(id)], books.(gens := books.gens[id := []]), nextId + 1;
        return Some(id);
      }
      var p := parent.value;
      if |views[p].owners| >= MAX_DEPTH {
        return None;
      }
      var fine := Check(p);
      if !fine {
        return None;
      }
      assert !views[p].closed by { OpenSelf(views, p); }
      AddBorrowed(views, table, books, nextGen, id, p);
      views, books, nextId := views[id := Borrowed(id, p, views[p])], books.(gens := books.gens[id := books.gens[p]]), nextId + 1;
      return Some(id);
    }

    method DescendAll(id: nat, components: seq<string>) returns (ok: bool)
      requires Valid() && id in views && !views[id].closed && views[id].fd.None?
      modifies `views, `table, `nextGen, `books, `loose, `misuse
      ensures Valid() && Later(old(views), views) && views.Keys == old(views).Keys
      ensures !views[id].closed && views[id].fd.None?
    {
      hide Sound;
      ok := true;
      for i := 0 to |components|
        invariant Valid() && Later(old(views), views) && views.Keys == old(views).Keys && !views[id].closed && views[id].fd.None?
      {
        ghost var before := views;
        ok := Descend(id, components[i]);
        LaterTransitive(old(views), before, views);
        if !ok {
          return;
        }
      }
    }

    /** HeldDirectory(path, parent_anchor=...): a failure on the way closes what was opened. */
    method Open(parent: Option<nat>, components: seq<string>) returns (r: Option<nat>)
      requires Valid() && (parent.Some? ==> parent.value in views)
      modifies this
      ensures Valid() && Later(old(views), views)
      ensures r.Some? ==> r.value !in old(views) && r.value in views && AllOpen(views, r.value) && Genuine(views, table, books, r.value)
      ensures r.None? ==> forall id :: id in views && id !in old(views) ==> views[id].closed
    {
      hide Sound, AllOpen, Genuine, Later;
      var begun := Begin(parent);
      if begun.None? {
        LaterSelf(views);
        return None;
      }
      var id := begun.value;
      ghost var first := views;
      var ok := DescendAll(id, if parent.None? then [""] + components else components);
      LaterTransitive(old(views), first, views);
      ghost var second := views;
      if ok && views[id].chain != [] {
        ok := Complete(id);
        LaterTransitive(old(views), second, views);
        if ok {
          return Some(id);
        }
      }
      second := views;
      Close(id);
      LaterTransitive(old(views), second, views);
      return None;
    }

    /** The view becomes usable, and is checked before it is handed out. */
    method Complete(id: nat) returns (ok: bool)
      requires Valid() && id in views && !views[id].closed && views[id].fd.None? && views[id].chain != []
      modifies `views
      ensures Valid() && Later(old(views), views) && views.Keys == old(views).Keys
      ensures ok ==> AllOpen(views, id) && Genuine(views, table, books, id)
    {
      hide Sound, AllOpen, Genuine;
      Finished(views, table, books, nextGen, id);
      views := views[id := Ready(views[id])];
      ok := Check(id);
    }
  }

  lemma LaterSelf(views: Views)
    ensures Later(views, views)
  {
  }

  // ----- Whole runs -----

  datatype Op = DoOpen(parent: Option<nat>, components: seq<string>) | DoCheck(id: nat) | DoClose(id: nat)

  /** A check that was made: of which view, whether it or a lender had closed by then, and its outcome. */
  datatype Checked = Checked(id: nat, dead: bool, ok: bool)

  /** Every view found dead is dead now. */
  ghost predicate StillDead(views: Views, log: seq<Checked>) {
    forall i :: 0 <= i < |log| && log[i].dead ==> Dead(views, log[i].id)
  }

  /** A view found dead was never accepted, then or later. */
  ghost predicate NeverRevived(log: seq<Checked>) {
    forall i, j :: 0 <= i <= j < |log| && log[i].dead && log[j].id == log[i].id ==> !log[j].ok
  }

  lemma StaysDead(before: Views, after: Views, table: Table, b: Books, nextGen: nat, log: seq<Checked>)
    requires Sound(before, table, b, nextGen, {}) && Later(before, after) && StillDead(before, log)
    ensures StillDead(after, log)
  {
    hide Sound, Later, Dead;
    forall i | 0 <= i < |log| && log[i].dead ensures Dead(after, log[i].id) {
      LendersThere(before, table, b, nextGen, log[i].id);
      DeadForever(before, after, log[i].id);
    }
  }

  lemma LendersThere(views: Views, table: Table, b: Books, nextGen: nat, id: nat)
    requires Sound(views, table, b, nextGen, {}) && Dead(views, id)
    ensures id in views && forall k :: 0 <= k < |views[id].owners| ==> views[id].owners[k].id in views
  {
    assert ViewOk(views, b, id);
  }

  lemma LogMore(views: Views, log: seq<Checked>, c: Checked)
    requires StillDead(views, log) && NeverRevived(log) && (c.dead <==> Dead(views, c.id)) && (c.dead ==> !c.ok)
    ensures StillDead(views, log + [c]) && NeverRevived(log + [c])
  {
    hide Dead;
  }

  /**
    Any sequence of opens, borrows, checks and closes, after which every view is closed.  Every
    descriptor that a view opened had its close attempted exactly once, as the number that stood for
    it; and a view whose lender was once closed never passed a check again.
  */
  method Session(table: Table, nextGen: nat, ops: seq<Op>) returns (d: Directories, ghost log: seq<Checked>)
    requires forall fd :: fd in table ==> table[fd] < nextGen
    requires forall x, y :: x in table && y in table && table[x] == table[y] ==> x == y
    ensures d.Valid() && !d.misuse && forall id :: id in d.views ==> d.views[id].closed
    ensures forall g :: g in d.books.owner ==> g in d.books.attempts && d.books.attempts[g] == 1
    ensures forall g :: g in d.loose ==> d.loose[g] == 1
    ensures NeverRevived(log)
  {
    hide Sound, AllOpen, Dead, Genuine, Later;
    d := new Directories(table, nextGen);
    log := [];
    for n := 0 to |ops|
      invariant d.Valid() && fresh(d) && StillDead(d.views, log) && NeverRevived(log)
    {
      ghost var before, oldTable, oldBooks, oldGen := d.views, d.table, d.books, d.nextGen;
      match ops[n] {
        case DoOpen(parent, components) =>
          if parent.None? || parent.value in d.views {
            var view := d.Open(parent, components);
            StaysDead(before, d.views, oldTable, oldBooks, oldGen, log);
          }
        case DoCheck(id) =>
          if id in d.views {
            var ok := d.Check(id);
            LogMore(d.views, log, Checked(id, Dead(d.views, id), ok));
            log := log + [Checked(id, Dead(d.views, id), ok)];
          }
        case DoClose(id) =>
          if id in d.views {
            d.Close(id);
            StaysDead(before, d.views, oldTable, oldBooks, oldGen, log);
          }
      }
    }
    CloseAll(d);
    AllAttempted(d.views, d.table, d.books, d.nextGen);
  }

  method CloseAll(d: Directories)
    requires d.Valid()
    modifies d
    ensures d.Valid() && forall id :: id in d.views ==> d.views[id].closed
  {
    hide Sound, AllOpen, Dead, Later;
    for id := 0 to d.nextId
      invariant d.Valid() && d.nextId == old(d.nextId) && forall x :: x in d.views && x < id ==> d.views[x].closed
    {
      if id in d.views {
        d.Close(id);
      }
    }
  }

  lemma AllAttempted(views: Views, table: Table, b: Books, nextGen: nat)
    requires Sound(views, table, b, nextGen, {}) && forall id :: id in views ==> views[id].closed
    ensures forall g :: g in b.owner ==> g in b.attempts && b.attempts[g] == 1
  {
    hide ViewOk;
  }

  lemma ClosedStep(start: Books, before: Books, after: Books, g: nat, id: nat)
    requires ClosedOnly(start, before, id) && g in before.attempts && after == BookClose(before, g) && g in before.owner && before.owner[g] == id
    ensures ClosedOnly(start, after, id)
  {
  }

  lemma ParentOpen(views: Views, b: Books, root: nat, staging: nat)
    requires root in views && staging in views && views[staging].parent == Some(root) && ViewOk(views, b, staging) && AllOpen(views, staging)
    ensures AllOpen(views, root)
  {
  }

  lemma DeadBorrowers(views: Views, id: nat)
    requires id in views && views[id].closed
    ensures forall x :: x in views && Owners(views[x], id) ==> Dead(views, x)
  {
  }

  lemma OpenSelf(views: Views, id: nat)
    requires id in views && AllOpen(views, id)
    ensures !views[id].closed
  {
  }

  lemma OpenedOnly(views: Views, table: Table, b: Books, nextGen: nat, id: nat, fd: nat)
    requires Sound(views, table, b, nextGen, {}) && id in b.gens
    ensures ClosedOnly(b, BookOpen(b, id, nextGen, fd), id)
  {
  }

  lemma ClosedAlready(views: Views, table: Table, b: Books, nextGen: nat, id: nat)
    requires Sound(views, table, b, nextGen, {}) && id in views && views[id].closed
    ensures views[id] == Shut(views[id]) && ClosedOnly(b, b, id)
    ensures forall g :: g in b.owner && b.owner[g] == id ==> g in b.attempts && b.attempts[g] == 1
  {
  }

  lemma ClosingDistinct(views: Views, table: Table, b: Books, nextGen: nat, id: nat)
    requires Sound(views, table, b, nextGen, {}) && id in views && !views[id].closed && id in b.gens && views[id].ownedStart <= |b.gens[id]|
    ensures forall i, j :: 0 <= i < j < |Closing(b, id, views[id])| ==> Closing(b, id, views[id])[i] != Closing(b, id, views[id])[j]
  {
  }

  lemma ClosingOwned(views: Views, table: Table, b: Books, nextGen: nat, id: nat)
    requires Sound(views, table, b, nextGen, {}) && id in views && !views[id].closed && id in b.gens && views[id].ownedStart <= |b.gens[id]|
    ensures forall g :: g in Closing(b, id, views[id]) ==> g in b.owner && b.owner[g] == id
  {
  }

  lemma AttemptedOnce(views: Views, table: Table, b: Books, nextGen: nat, id: nat)
    requires Sound(views, table, b, nextGen, {}) && id in views && views[id].closed
    ensures forall g :: g in b.owner && b.owner[g] == id ==> g in b.attempts && b.attempts[g] == 1
  {
  }
}
