/**
  Publication of a reconstructed bundle (nix/home_manager_bundle.py): the packed file is renamed
  out of the private tree into the output directory, a receipt is written beside it, and a fault
  at any step closes the held files and rolls back by exact name and inode.

  `output` and `stage` map names to inodes, and `meta` gives the rest of an inode's stat record;
  renames, writes and mode changes may give it any new value.  Every call may fail before its
  effect, and the rename and the create may also be interrupted right after it.  Between any two
  steps other processes may put, replace or remove entries of the output directory; so they may
  between the stat and the unlink of the rollback, and an entry that they put there in that window
  is removed in place of ours.
*/
module Publication {

  import opened Basics
  import opened Interference

  /** acquired.snapshot: the inode and everything else stat reports about it. */
  datatype Snapshot = Snapshot(inode: nat, rest: int)

  datatype PublicationFile = PublicationFile(fd: Option<nat>, name: string, outputNames: set<string>,
                                             seen: Option<Snapshot>)

  const PENDING_BUNDLE := ".pending-bundle"
  const BUNDLE := "bundle"
  const PENDING_RECEIPT := ".pending-receipt"
  const RECEIPT := "receipt.json"

  /** The flag that the action passes to renameat2. */
  const NO_REPLACE := true

  // ----- Other processes -----

  /** Put or remove an entry of the output directory. */
  type Deed = Act<string, nat>

  /** They have no link to the two inodes of this action. */
  predicate Foreign(acts: seq<Deed>, a: nat, b: nat) {
    forall i :: 0 <= i < |acts| && acts[i].Put? ==> acts[i].value != a && acts[i].value != b
  }

  /** One of the acts falls on an entry of this action. */
  predicate Displaces(output: map<string, nat>, acts: seq<Deed>, a: nat, b: nat) {
    acts != [] &&
    var init, key := acts[..|acts| - 1], acts[|acts| - 1].key;
    Displaces(output, init, a, b) || (key in Acts(output, init) && (Acts(output, init)[key] == a || Acts(output, init)[key] == b))
  }

  /** The last act on this name put an entry there. */
  predicate PutLast(acts: seq<Deed>, name: string) { LastAct(acts, name).Some? && LastAct(acts, name).value.Put? }

  lemma {:induction false} ActsKeep(output: map<string, nat>, acts: seq<Deed>, a: nat, b: nat)
    requires Foreign(acts, a, b)
    ensures var after := Acts(output, acts);
            && (forall n :: n in after && (after[n] == a || after[n] == b) ==> n in output && output[n] == after[n])
            && (!Displaces(output, acts, a, b) ==> forall n :: n in output && (output[n] == a || output[n] == b) ==> n in after && after[n] == output[n])
  {
    if acts != [] {
      ActsKeep(output, acts[..|acts| - 1], a, b);
    }
  }

  /**
    The stat saw our file under the name.  What the unlink then removes is foreign if and only if the
    last act of the others on that name, in between, put an entry there.
  */
  lemma UnlinkRace(output: map<string, nat>, name: string, window: seq<Deed>, a: nat, b: nat)
    requires name in output && (output[name] == a || output[name] == b) && Foreign(window, a, b)
    ensures var found := Acts(output, window);
            (name in found && found[name] != a && found[name] != b) <==> PutLast(window, name)
  {
    ActsAt(output, window, name);
    LastActIn(window, name);
  }

  /** Such a run: our bundle is replaced by inode 7 in the window, and the unlink removes inode 7. */
  lemma RaceRemovesForeign()
    ensures var output, window: seq<Deed> := map[BUNDLE := 1], [Put(BUNDLE, 7)];
            && Foreign(window, 1, 2) && PutLast(window, BUNDLE)
            && Acts(output, window) == map[BUNDLE := 7] && Acts(output, window) - {BUNDLE} == map[]
  {
    var window: seq<Deed> := [Put(BUNDLE, 7)];
    assert window[..0] == [];
    assert Acts(map[BUNDLE := 1], window) == map[BUNDLE := 1][BUNDLE := 7] == map[BUNDLE := 7];
  }

  // ----- What is recorded about the entries of this action -----

  /** An entry of ours exists only under a name that was recorded beforehand, and under one name only. */
  ghost predicate Recorded(output: map<string, nat>, file: Option<PublicationFile>, inode: nat, names: set<string>) {
    && (file.Some? ==> file.value.outputNames <= names && (file.value.fd.Some? ==> file.value.fd.value == inode)
                       && (file.value.seen.Some? ==> file.value.seen.value.inode == inode))
    && (forall n :: n in output && output[n] == inode ==> file.Some? && n in file.value.outputNames)
    && (forall m, n :: m in output && n in output && output[m] == output[n] == inode ==> m == n)
  }

  /** No new entry of this inode. */
  lemma RecordedFewer(output: map<string, nat>, after: map<string, nat>, file: Option<PublicationFile>, inode: nat, names: set<string>)
    requires Recorded(output, file, inode, names)
    requires forall n :: n in after && after[n] == inode ==> n in output && output[n] == inode
    ensures Recorded(after, file, inode, names)
  {
  }

  /** No name forgotten. */
  lemma RecordedAs(output: map<string, nat>, file: PublicationFile, f: PublicationFile, inode: nat, names: set<string>)
    requires Recorded(output, Some(file), inode, names) && file.outputNames <= f.outputNames <= names
    requires f.fd.Some? ==> f.fd.value == inode
    requires f.seen.Some? ==> f.seen.value.inode == inode || f.seen == file.seen
    ensures Recorded(output, Some(f), inode, names)
  {
  }

  lemma RecordFacts(output: map<string, nat>, file: PublicationFile, inode: nat, names: set<string>)
    requires Recorded(output, Some(file), inode, names)
    ensures file.outputNames <= names && (file.fd.Some? ==> file.fd.value == inode)
    ensures file.seen.Some? ==> file.seen.value.inode == inode
    ensures forall n :: n in output && output[n] == inode ==> n in file.outputNames
  {
  }

  lemma RecordedOnce(output: map<string, nat>, file: Option<PublicationFile>, inode: nat, names: set<string>)
    requires Recorded(output, file, inode, names)
    ensures forall m, n :: m in output && n in output && output[m] == output[n] == inode ==> m == n
  {
  }

  lemma RecordedNew(output: map<string, nat>, file: PublicationFile, inode: nat, names: set<string>)
    requires (forall n :: n in output ==> output[n] != inode) && file.outputNames <= names && file.fd.None? && file.seen.None?
    ensures Recorded(output, Some(file), inode, names)
  {
  }

  /** The one entry of this inode comes under a recorded name. */
  lemma RecordedMoved(output: map<string, nat>, after: map<string, nat>, file: Option<PublicationFile>, inode: nat, names: set<string>, name: string)
    requires Recorded(output, file, inode, names) && file.Some? && name in file.value.outputNames
    requires forall n :: n in after && after[n] == inode ==> n == name
    ensures Recorded(after, file, inode, names)
  {
  }

  class Publication {
    var output: map<string, nat>
    var stage: map<string, nat>
    var meta: map<nat, int>
    var bundle: Option<PublicationFile>
    var receipt: Option<PublicationFile>

    /** The packed file and, once created, the receipt file. */
    const bundleInode: nat
    const receiptInode: nat

    // Monitors.
    ghost var harmed: bool      // this action removed or overwrote an entry that is not its own
    ghost var raced: bool       // others put an entry between the stat and the unlink of its name
    ghost var displaced: bool   // another process removed or replaced an entry of this action
    ghost var unwitnessed: bool // a file of this action was left without a current witness when it was closed
    ghost var refused: bool     // a call made by the rollback failed
    ghost var lostCreate: bool  // an interrupt fell between the create and the assignment of its descriptor
    ghost var blindClose: bool  // fstat failed while a held file was being closed

    ghost predicate At(name: string, inode: nat)
      reads this
    {
      name in output && output[name] == inode
    }

    ghost predicate Nowhere(inode: nat)
      reads this
    {
      forall n :: n in output ==> output[n] != inode
    }

    ghost predicate Ours(inode: nat) { inode == bundleInode || inode == receiptInode }

    /** Our receipt is published only beside our bundle. */
    ghost predicate Ordered()
      reads this
    {
      At(RECEIPT, receiptInode) ==> At(BUNDLE, bundleInode) || displaced || blindClose || refused
    }

    ghost predicate Inv()
      reads this
    {
      && bundleInode != receiptInode && bundleInode in meta && receiptInode in meta
      && (harmed <==> raced) && (raced ==> displaced) && Ordered()
      && (lostCreate ==> unwitnessed && receipt.Some? && receipt.value.outputNames == {PENDING_RECEIPT})
      && (unwitnessed ==> lostCreate || blindClose)
      && (forall n :: n in stage ==> stage[n] == bundleInode)
      && Recorded(output, bundle, bundleInode, {PENDING_BUNDLE, BUNDLE})
      && Recorded(output, receipt, receiptInode, {PENDING_RECEIPT, RECEIPT})
    }

    /** Nothing of this action is left in the output directory. */
    ghost predicate Clean()
      reads this
    {
      forall n :: n in output ==> !Ours(output[n])
    }

    ghost predicate Complete()
      reads this
    {
      && At(BUNDLE, bundleInode) && At(RECEIPT, receiptInode)
      && forall n :: n in output && Ours(output[n]) ==> n == BUNDLE || n == RECEIPT
    }

    constructor (bundleInode: nat, receiptInode: nat, foreign: map<string, nat>)
      requires bundleInode != receiptInode
      requires forall n :: n in foreign ==> foreign[n] != bundleInode && foreign[n] != receiptInode
      ensures Inv() && Clean() && output == foreign && bundle.None? && receipt.None?
      ensures !raced && !displaced && !unwitnessed && !refused && !lostCreate && !blindClose
      ensures this.bundleInode == bundleInode && this.receiptInode == receiptInode
      ensures stage == map[BUNDLE := bundleInode]
    {
      this.bundleInode, this.receiptInode := bundleInode, receiptInode;
      output, stage, meta := foreign, map[BUNDLE := bundleInode], map[bundleInode := 0, receiptInode := 0];
      bundle, receipt := None, None;
      harmed, raced, displaced, unwitnessed, refused, lostCreate, blindClose := false, false, false, false, false, false, false;
    }

    /** Other processes act on the output directory. */
    method Others() returns (acts: seq<Deed>)
      requires Inv()
      modifies this`output, this`displaced
      ensures Inv() && (old(displaced) ==> displaced) && Foreign(acts, bundleInode, receiptInode) && output == Acts(old(output), acts)
      ensures displaced == (old(displaced) || Displaces(old(output), acts, bundleInode, receiptInode))
      ensures forall n :: n in output && Ours(output[n]) ==> n in old(output) && old(output)[n] == output[n]
      ensures !displaced ==> forall n :: n in old(output) && Ours(old(output)[n]) ==> n in output && output[n] == old(output)[n]
    {
      hide Acts, Displaces, Recorded;
      acts := *;
      if !Foreign(acts, bundleInode, receiptInode) {
        acts := [];
      }
      ActsKeep(output, acts, bundleInode, receiptInode);
      displaced := displaced || Displaces(output, acts, bundleInode, receiptInode);
      output := Acts(output, acts);
      RecordedFewer(old(output), output, bundle, bundleInode, {PENDING_BUNDLE, BUNDLE});
      RecordedFewer(old(output), output, receipt, receiptInode, {PENDING_RECEIPT, RECEIPT});
    }

    function File(isReceipt: bool): Option<PublicationFile>
      reads this
    {
      if isReceipt then receipt else bundle
    }

    function InodeOf(isReceipt: bool): nat { if isReceipt then receiptInode else bundleInode }

    ghost function NamesOf(isReceipt: bool): set<string> {
      if isReceipt then {PENDING_RECEIPT, RECEIPT} else {PENDING_BUNDLE, BUNDLE}
    }

    /** New facts about a file; no recorded name is forgotten. */
    method SetFile(isReceipt: bool, f: PublicationFile)
      requires Inv() && File(isReceipt).Some? && File(isReceipt).value.outputNames <= f.outputNames <= NamesOf(isReceipt)
      requires f.fd.Some? ==> f.fd.value == InodeOf(isReceipt)
      requires f.seen == File(isReceipt).value.seen || f.seen == Some(Current(isReceipt))
      requires lostCreate && isReceipt ==> f.outputNames == File(isReceipt).value.outputNames
      modifies this`bundle, this`receipt
      ensures Inv() && File(isReceipt) == Some(f) && File(!isReceipt) == old(File(!isReceipt))
    {
      hide Recorded;
      RecordedAs(output, File(isReceipt).value, f, InodeOf(isReceipt), NamesOf(isReceipt));
      if isReceipt { receipt := Some(f); } else { bundle := Some(f); }
    }

    /** capture(): stat through the held descriptor, which can only denote the one inode. */
    method Capture(isReceipt: bool) returns (ok: bool)
      requires Inv() && File(isReceipt).Some? && File(isReceipt).value.fd.Some?
      modifies this`bundle, this`receipt
      ensures Inv() && File(!isReceipt) == old(File(!isReceipt)) && File(isReceipt).Some?
      ensures File(isReceipt).value == (var f := old(File(isReceipt)).value; if ok then f.(seen := Some(Current(isReceipt))) else f)
    {
      hide Recorded;
      RecordFacts(output, File(isReceipt).value, InodeOf(isReceipt), NamesOf(isReceipt));
      ok := *;
      if ok {
        SetFile(isReceipt, File(isReceipt).value.(seen := Some(Snapshot(InodeOf(isReceipt), meta[InodeOf(isReceipt)]))));
      }
    }

    ghost function Current(isReceipt: bool): Snapshot
      reads this
      requires InodeOf(isReceipt) in meta
    {
      Snapshot(InodeOf(isReceipt), meta[InodeOf(isReceipt)])
    }

    /** inspect(): the held file is still the one its name denotes. */
    method Inspect(isReceipt: bool, inStage: bool) returns (ok: bool)
      requires Inv() && File(isReceipt).Some? && File(isReceipt).value.fd.Some?
      modifies this`output, this`displaced, this`bundle, this`receipt
      ensures Inv() && (old(displaced) ==> displaced) && File(!isReceipt) == old(File(!isReceipt)) && File(isReceipt).Some?
      ensures File(isReceipt).value == old(File(isReceipt)).value.(seen := File(isReceipt).value.seen)
      ensures ok && !inStage ==> At(File(isReceipt).value.name, InodeOf(isReceipt))
      ensures forall n :: n in output && Ours(output[n]) ==> n in old(output) && old(output)[n] == output[n]
      ensures !displaced ==> forall n :: n in old(output) && Ours(old(output)[n]) ==> n in output && output[n] == old(output)[n]
    {
      hide Recorded;
      var _ := Others();
      var checked: bool := *;
      if !checked {
        return false;
      }
      ok := Capture(isReceipt);
      if ok {
        var f := File(isReceipt).value;
        var directory := if inStage then stage else output;
        ok := f.name in directory && directory[f.name] == InodeOf(isReceipt);
      }
    }

    /**
      promote(): the destination name is recorded before the rename, so that an interrupt right after
      it still leaves the entry under a recorded name.  RENAME_NOREPLACE refuses an occupied name.
    */
    method Promote(isReceipt: bool, fromStage: bool, name: string) returns (ok: bool)
      requires Inv() && File(isReceipt).Some? && File(isReceipt).value.fd.Some?
      requires name in (if isReceipt then {RECEIPT} else {PENDING_BUNDLE, BUNDLE})
      requires name == RECEIPT ==> At(BUNDLE, bundleInode) || displaced
      requires (fromStage ==> !isReceipt && Nowhere(bundleInode)) && (!isReceipt ==> Nowhere(receiptInode))
      requires isReceipt ==> File(isReceipt).value.name != BUNDLE && !lostCreate
      modifies this`output, this`stage, this`meta, this`harmed, this`displaced, this`bundle, this`receipt
      ensures Inv() && (old(displaced) ==> displaced) && File(!isReceipt) == old(File(!isReceipt)) && File(isReceipt).Some?
      ensures File(isReceipt).value.fd == old(File(isReceipt)).value.fd
      ensures ok ==> At(name, InodeOf(isReceipt)) && File(isReceipt).value.name == name
      ensures !isReceipt ==> Nowhere(receiptInode)
      ensures isReceipt && !displaced && old(At(BUNDLE, bundleInode)) ==> At(BUNDLE, bundleInode)
    {
      hide Recorded;
      RecordFacts(output, File(isReceipt).value, InodeOf(isReceipt), NamesOf(isReceipt));
      ok := Inspect(isReceipt, fromStage);
      if !ok {
        return;
      }
      var f := File(isReceipt).value;
      SetFile(isReceipt, f.(outputNames := f.outputNames + {name}));
      var _ := Others();
      ok := Rename(isReceipt, fromStage, f.name, name);
      if !ok {
        return;
      }
      SetFile(isReceipt, File(isReceipt).value.(name := name));
      ok := Inspect(isReceipt, false);
    }

    /** renameat2 with RENAME_NOREPLACE: refused, done, or done and then interrupted. */
    method Rename(isReceipt: bool, fromStage: bool, from: string, name: string) returns (ok: bool)
      requires Inv() && File(isReceipt).Some? && name in File(isReceipt).value.outputNames
      requires name == RECEIPT ==> At(BUNDLE, bundleInode) || displaced
      requires name == RECEIPT ==> isReceipt && from != BUNDLE
      requires (fromStage ==> !isReceipt && Nowhere(bundleInode)) && (!isReceipt ==> Nowhere(receiptInode))
      requires !fromStage && from in output && Ours(output[from]) ==> output[from] == InodeOf(isReceipt)
      modifies this`output, this`stage, this`meta, this`harmed
      ensures Inv()
      ensures forall n :: n in old(output) && (fromStage || n != from) ==> n in output && output[n] == old(output)[n]
      ensures forall n :: n in output && n !in old(output) ==> n == name
      ensures !isReceipt ==> Nowhere(receiptInode)
      ensures isReceipt && old(At(BUNDLE, bundleInode)) ==> At(BUNDLE, bundleInode)
    {
      hide Recorded;
      var fails: bool, interrupted: bool, rest: int := *, *, *;
      var source := if fromStage then stage else output;
      ghost var occupied := name in output && !Ours(output[name]);
      if fails || from !in source || (NO_REPLACE && name in output) {
        return false;
      }
      var moved := source[from];
      if fromStage {
        stage := stage - {from};
        output := output[name := moved];
      } else {
        output := (output - {from})[name := moved];
      }
      harmed := harmed || occupied;
      meta := meta[moved := rest];
      Moved(old(output), isReceipt, fromStage, from, name, moved);
      ok := !interrupted;
    }

    /** Only the entry of the file itself can have come under the new name. */
    lemma Moved(before: map<string, nat>, isReceipt: bool, fromStage: bool, from: string, name: string, moved: nat)
      requires bundleInode != receiptInode && File(isReceipt).Some? && name in File(isReceipt).value.outputNames
      requires Recorded(before, bundle, bundleInode, {PENDING_BUNDLE, BUNDLE}) && Recorded(before, receipt, receiptInode, {PENDING_RECEIPT, RECEIPT})
      requires Ours(moved) ==> moved == InodeOf(isReceipt)
      requires if fromStage then (forall n :: n in before ==> before[n] != moved) else from in before && before[from] == moved
      requires output == (if fromStage then before else before - {from})[name := moved]
      ensures Recorded(output, bundle, bundleInode, {PENDING_BUNDLE, BUNDLE}) && Recorded(output, receipt, receiptInode, {PENDING_RECEIPT, RECEIPT})
    {
      hide Recorded;
      if moved == bundleInode {
        RecordedOnce(before, bundle, bundleInode, {PENDING_BUNDLE, BUNDLE});
        RecordedMoved(before, output, bundle, bundleInode, {PENDING_BUNDLE, BUNDLE}, name);
      } else {
        RecordedFewer(before, output, bundle, bundleInode, {PENDING_BUNDLE, BUNDLE});
      }
      if moved == receiptInode {
        RecordedOnce(before, receipt, receiptInode, {PENDING_RECEIPT, RECEIPT});
        RecordedMoved(before, output, receipt, receiptInode, {PENDING_RECEIPT, RECEIPT}, name);
      } else {
        RecordedFewer(before, output, receipt, receiptInode, {PENDING_RECEIPT, RECEIPT});
      }
    }

    /** Opens the packed bundle in the private directory and moves it to its final name in two renames. */
    method PublishBundle() returns (ok: bool)
      requires Inv() && Clean() && bundle.None? && receipt.None? && stage == map[BUNDLE := bundleInode]
      modifies this
      ensures Inv() && receipt == old(receipt) && unwitnessed == old(unwitnessed) && refused == old(refused)
      ensures Nowhere(receiptInode) && bundle.Some?
      ensures bundle.value.fd.None? ==> Nowhere(bundleInode)
      ensures ok ==> bundle.value.fd.Some? && bundle.value.name == BUNDLE && At(BUNDLE, bundleInode)
    {
      bundle := Some(PublicationFile(None, BUNDLE, {}, None));
      var found: bool := *;
      if !found {
        return false;
      }
      bundle := Some(bundle.value.(fd := Some(bundleInode)));
      ok := Inspect(false, true);
      if ok {
        ok := Promote(false, true, PENDING_BUNDLE);
      }
      if ok {
        ok := Inspect(false, false);
      }
      if ok {
        // Cleanup of the private tree, the second look at the inputs and the comparison with the first facts.
        ok := *;
      }
      if ok {
        ok := Promote(false, false, BUNDLE);
      }
    }

    /** Exclusive create; an interrupt between the call and the assignment of its result loses the file. */
    method CreateReceipt() returns (ok: bool)
      requires Inv() && receipt.None? && Nowhere(receiptInode) && !unwitnessed
      requires At(BUNDLE, bundleInode) || displaced
      modifies this`output, this`meta, this`bundle, this`receipt, this`displaced, this`unwitnessed, this`lostCreate
      ensures Inv() && bundle == old(bundle) && receipt.Some? && receipt.value.seen.None? && receipt.value.name == PENDING_RECEIPT
      ensures ok ==> receipt.value.fd.Some? && !unwitnessed && (At(BUNDLE, bundleInode) || displaced)
      ensures !ok ==> receipt.value.fd.None? && (!unwitnessed ==> Nowhere(receiptInode))
      ensures unwitnessed ==> !Nowhere(receiptInode)
    {
      hide Recorded;
      receipt := Some(PublicationFile(None, PENDING_RECEIPT, {PENDING_RECEIPT}, None));
      RecordedNew(output, receipt.value, receiptInode, {PENDING_RECEIPT, RECEIPT});
      var _ := Others();
      var fails: bool, interrupted: bool, rest: int := *, *, *;
      if fails || PENDING_RECEIPT in output {
        return false;
      }
      ok := Create(interrupted, rest);
    }

    /** The file appears; the interrupt, if any, falls before its descriptor is assigned. */
    method Create(interrupted: bool, rest: int) returns (ok: bool)
      requires Inv() && receipt == Some(PublicationFile(None, PENDING_RECEIPT, {PENDING_RECEIPT}, None)) && !unwitnessed
      requires PENDING_RECEIPT !in output && Nowhere(receiptInode)
      modifies this`output, this`meta, this`bundle, this`receipt, this`unwitnessed, this`lostCreate
      ensures Inv() && bundle == old(bundle) && At(PENDING_RECEIPT, receiptInode) && ok == !interrupted
      ensures receipt == Some(PublicationFile(if ok then Some(receiptInode) else None, PENDING_RECEIPT, {PENDING_RECEIPT}, None))
      ensures unwitnessed == interrupted && (old(At(BUNDLE, bundleInode)) ==> At(BUNDLE, bundleInode))
    {
      hide Recorded;
      output, meta := output[PENDING_RECEIPT := receiptInode], meta[receiptInode := rest];
      RecordedMoved(old(output), output, receipt, receiptInode, {PENDING_RECEIPT, RECEIPT}, PENDING_RECEIPT);
      RecordedFewer(old(output), output, bundle, bundleInode, {PENDING_BUNDLE, BUNDLE});
      ok := !interrupted;
      if interrupted {
        unwitnessed, lostCreate := true, true;
      } else {
        SetFile(true, receipt.value.(fd := Some(receiptInode)));
      }
    }

    /** Writes, mode change and sync, each of which may fail part way. */
    method FillReceipt() returns (ok: bool)
      requires Inv() && receipt.Some? && receipt.value.fd.Some? && receipt.value.name == PENDING_RECEIPT
      requires At(BUNDLE, bundleInode) || displaced
      modifies this`output, this`meta, this`displaced
      ensures Inv() && (At(BUNDLE, bundleInode) || displaced)
    {
      ok := true;
      var writes: nat := *;
      while writes > 0 && ok
        invariant Inv() && (At(BUNDLE, bundleInode) || displaced)
      {
        var _ := Others();
        var rest: int := *;
        ok := *;
        meta := meta[receiptInode := rest];
        writes := writes - 1;
      }
    }

    method PublishReceipt() returns (ok: bool)
      requires Inv() && receipt.None? && Nowhere(receiptInode) && !unwitnessed
      requires At(BUNDLE, bundleInode) || displaced
      modifies this
      ensures Inv() && refused == old(refused) && bundle == old(bundle) && receipt.Some?
      ensures receipt.value.fd.None? ==> receipt.value.seen.None? && (!unwitnessed ==> Nowhere(receiptInode))
      ensures receipt.value.fd.Some? ==> !unwitnessed
      ensures unwitnessed ==> !Nowhere(receiptInode)
      ensures ok ==> receipt.value.fd.Some? && receipt.value.name == RECEIPT && At(RECEIPT, receiptInode)
      ensures ok && !displaced ==> At(BUNDLE, bundleInode)
    {
      ok := CreateReceipt();
      if !ok {
        return;
      }
      ok := Inspect(true, false);
      if ok {
        ok := FillReceipt();
      }
      if ok {
        ok := Inspect(true, false);
      }
      if ok {
        ok := Promote(true, false, RECEIPT);
      }
    }

    /** The held file's witness is what stat would report now. */
    ghost predicate Witnessed(isReceipt: bool)
      reads this
    {
      InodeOf(isReceipt) in meta && File(isReceipt).Some? && File(isReceipt).value.seen == Some(Current(isReceipt))
    }

    /** close_publication for one file: without an earlier fault its name is compared once more. */
    method CloseFile(isReceipt: bool, primary: bool) returns (ok: bool)
      requires Inv() && File(isReceipt).Some? && File(isReceipt).value.fd.Some?
      modifies this`output, this`displaced, this`bundle, this`receipt, this`unwitnessed, this`blindClose
      ensures Inv() && File(!isReceipt) == old(File(!isReceipt)) && (old(displaced) ==> displaced)
      ensures File(isReceipt).Some? && File(isReceipt).value.fd.None?
      ensures ok ==> At(old(File(isReceipt)).value.name, InodeOf(isReceipt)) || primary
      ensures unwitnessed == (old(unwitnessed) || (!Witnessed(isReceipt) && !Nowhere(InodeOf(isReceipt))))
      ensures forall n :: n in output && Ours(output[n]) ==> n in old(output) && old(output)[n] == output[n]
      ensures !displaced ==> forall n :: n in old(output) && Ours(old(output)[n]) ==> n in output && output[n] == old(output)[n]
    {
      ok := true;
      var _ := Others();
      var f := File(isReceipt).value;
      if !primary {
        var checked: bool := *;
        ok := checked && f.seen == Some(Snapshot(InodeOf(isReceipt), meta[InodeOf(isReceipt)]))
              && f.name in output && output[f.name] == InodeOf(isReceipt);
      }
      var released := Release(isReceipt);
      ok := ok && released;
    }

    ghost method MarkClosed(blind: bool, stuck: bool)
      requires Inv() && (stuck ==> blind)
      modifies this`unwitnessed, this`blindClose
      ensures Inv() && blindClose == (old(blindClose) || blind) && unwitnessed == (old(unwitnessed) || stuck)
    {
      hide Recorded;
      blindClose := blindClose || blind;
      unwitnessed := unwitnessed || stuck;
    }

    /** PublicationFile.close: a last look through the descriptor, then the number is dropped for good. */
    method Release(isReceipt: bool) returns (ok: bool)
      requires Inv() && File(isReceipt).Some? && File(isReceipt).value.fd.Some?
      modifies this`bundle, this`receipt, this`unwitnessed, this`blindClose
      ensures Inv() && File(!isReceipt) == old(File(!isReceipt))
      ensures File(isReceipt).Some? && File(isReceipt).value.fd.None?
      ensures unwitnessed == (old(unwitnessed) || (!Witnessed(isReceipt) && !Nowhere(InodeOf(isReceipt))))
    {
      hide Recorded, Ordered;
      var captured := Capture(isReceipt);
      RecordFacts(output, File(isReceipt).value, InodeOf(isReceipt), NamesOf(isReceipt));
      assert captured ==> Witnessed(isReceipt);
      SetFile(isReceipt, File(isReceipt).value.(fd := None));
      assert captured ==> Witnessed(isReceipt);
      hide Witnessed, Nowhere;
      MarkClosed(!captured, !Witnessed(isReceipt) && !Nowhere(InodeOf(isReceipt)));
      var closed: bool := *;
      ok := captured && closed;
    }

    /**
      rollback_publication for one recorded name.  The stat must show the witnessed inode; the unlink
      then removes whatever the name holds by that time.
    */
    method RollbackName(isReceipt: bool, name: string)
      requires Inv() && File(isReceipt).Some? && File(isReceipt).value.fd.None?
      requires name == BUNDLE || name == PENDING_BUNDLE ==>
                 !isReceipt && (At(RECEIPT, receiptInode) ==> blindClose || displaced || refused)
      modifies this`output, this`displaced, this`harmed, this`raced, this`refused
      ensures Inv() && (old(displaced) ==> displaced) && (old(refused) ==> refused)
      ensures forall n :: n in output && Ours(output[n]) ==> n in old(output) && old(output)[n] == output[n]
      ensures Witnessed(isReceipt) && !refused ==> !At(name, InodeOf(isReceipt))
      ensures !displaced ==> forall n :: n in old(output) && Ours(old(output)[n]) ==>
                (n in output && output[n] == old(output)[n]) || (n == name && Witnessed(isReceipt) && old(output)[n] == InodeOf(isReceipt))
    {
      hide Recorded, Acts, Displaces, PutLast, Foreign;
      var _ := Others();
      var fails: bool := *;
      if fails {
        refused := true;
        return;
      }
      if name !in output {
        return;
      }
      var named := Snapshot(output[name], if output[name] in meta then meta[output[name]] else 0);
      RecordFacts(output, File(isReceipt).value, InodeOf(isReceipt), NamesOf(isReceipt));
      if File(isReceipt).value.seen != Some(named) {
        return;
      }
      UnlinkSeen(isReceipt, name);
    }

    /** The stat showed our inode; whatever has the name by the time of the unlink is removed. */
    method UnlinkSeen(isReceipt: bool, name: string)
      requires Inv() && name in output && output[name] == InodeOf(isReceipt)
      requires name == BUNDLE ==> At(RECEIPT, receiptInode) ==> blindClose || displaced || refused
      modifies this`output, this`displaced, this`harmed, this`raced, this`refused
      ensures Inv() && (old(displaced) ==> displaced) && (old(refused) ==> refused)
      ensures forall n :: n in output && Ours(output[n]) ==> n in old(output) && old(output)[n] == output[n]
      ensures !refused ==> name !in output
      ensures !displaced ==> forall n :: n in old(output) && Ours(old(output)[n]) ==> n == name || (n in output && output[n] == old(output)[n])
    {
      hide Recorded, Acts, Displaces, PutLast, Foreign;
      ghost var statSaw := output;
      var window := Others();
      var fails: bool := *;
      if fails || name !in output {
        refused := true;
        return;
      }
      UnlinkRace(statSaw, name, window, bundleInode, receiptInode);
      Unlink(name, PutLast(window, name));
    }

    /** The unlink: whatever the name holds goes. */
    method Unlink(name: string, ghost race: bool)
      requires Inv() && name in output && (race <==> !Ours(output[name])) && (race ==> displaced)
      requires name == BUNDLE && At(BUNDLE, bundleInode) && At(RECEIPT, receiptInode) ==> blindClose || displaced || refused
      modifies this`output, this`harmed, this`raced
      ensures Inv() && output == old(output) - {name}
      ensures harmed == (old(harmed) || !Ours(old(output)[name])) && raced == (old(raced) || race)
    {
      hide Recorded;
      harmed := harmed || !Ours(output[name]);
      raced := raced || race;
      output := output - {name};
      RecordedFewer(old(output), output, bundle, bundleInode, {PENDING_BUNDLE, BUNDLE});
      RecordedFewer(old(output), output, receipt, receiptInode, {PENDING_RECEIPT, RECEIPT});
    }

    /** In the output directory without a current witness: rollback has no authority to unlink it. */
    ghost predicate Stuck(isReceipt: bool)
      reads this
    {
      !Witnessed(isReceipt) && !Nowhere(InodeOf(isReceipt))
    }

    ghost predicate Closed(isReceipt: bool)
      reads this
    {
      if File(isReceipt).Some? then File(isReceipt).value.fd.None? else Nowhere(InodeOf(isReceipt))
    }

    /** After closing: what is ours and in the output is witnessed, unless the monitor says otherwise. */
    ghost predicate AllClosed()
      reads this
    {
      && Closed(true) && Closed(false)
      && (!unwitnessed ==> !Stuck(true) && !Stuck(false))
      && (unwitnessed && !displaced ==> Stuck(true) || Stuck(false))
    }

    method RollbackFile(isReceipt: bool)
      requires Inv() && AllClosed()
      requires !isReceipt ==> Nowhere(receiptInode) || lostCreate || blindClose || refused
      modifies this`output, this`displaced, this`harmed, this`raced, this`refused
      ensures Inv() && AllClosed() && (old(displaced) ==> displaced) && (old(refused) ==> refused)
      ensures !refused && !unwitnessed ==> Nowhere(InodeOf(isReceipt))
      ensures !isReceipt && old(Nowhere(receiptInode)) ==> Nowhere(receiptInode)
    {
      hide Recorded, Ordered;
      if File(isReceipt).None? {
        return;
      }
      if lostCreate { LostIsPending(); }
      RollbackNames(isReceipt);
    }

    /** A lost receipt is under its pending name. */
    lemma LostIsPending()
      requires Inv() && lostCreate
      ensures !At(RECEIPT, receiptInode)
    {
      RecordFacts(output, receipt.value, receiptInode, NamesOf(true));
    }

    /** Both names a file may have, in the order of the source. */
    method RollbackNames(isReceipt: bool)
      requires Inv() && File(isReceipt).Some? && File(isReceipt).value.fd.None?
      requires !isReceipt && At(RECEIPT, receiptInode) ==> blindClose || displaced || refused
      modifies this`output, this`displaced, this`harmed, this`raced, this`refused
      ensures Inv() && (old(displaced) ==> displaced) && (old(refused) ==> refused)
      ensures Witnessed(isReceipt) && !refused ==> Nowhere(InodeOf(isReceipt))
      ensures forall n :: n in output && Ours(output[n]) ==> n in old(output) && old(output)[n] == output[n]
      ensures !displaced ==> forall n :: n in old(output) && Ours(old(output)[n]) ==>
                (n in output && output[n] == old(output)[n]) || (Witnessed(isReceipt) && old(output)[n] == InodeOf(isReceipt))
    {
      hide Recorded;
      RecordFacts(output, File(isReceipt).value, InodeOf(isReceipt), NamesOf(isReceipt));
      var names := if isReceipt then [PENDING_RECEIPT, RECEIPT] else [PENDING_BUNDLE, BUNDLE];
      if names[0] in File(isReceipt).value.outputNames {
        RollbackName(isReceipt, names[0]);
      }
      if names[1] in File(isReceipt).value.outputNames {
        RollbackName(isReceipt, names[1]);
      }
    }

    method CloseFiles(primary: bool) returns (ok: bool)
      requires Inv() && bundle.Some? && (bundle.value.fd.None? ==> Nowhere(bundleInode))
      requires receipt.None? ==> Nowhere(receiptInode) && !unwitnessed
      requires receipt.Some? && receipt.value.fd.None? ==>
                 receipt.value.seen.None? && (!unwitnessed ==> Nowhere(receiptInode)) && (unwitnessed ==> !Nowhere(receiptInode))
      requires receipt.Some? && receipt.value.fd.Some? ==> !unwitnessed
      requires !primary ==> receipt.Some? && receipt.value.fd.Some? && bundle.value.fd.Some?
                            && receipt.value.name == RECEIPT && bundle.value.name == BUNDLE
      modifies this`output, this`displaced, this`bundle, this`receipt, this`unwitnessed, this`blindClose
      ensures Inv() && AllClosed()
      ensures ok && !primary && !displaced ==> Complete()
    {
      ok := true;
      if receipt.Some? && receipt.value.fd.Some? {
        ok := CloseFile(true, primary);
      }
      if bundle.value.fd.Some? {
        var bundleOk := CloseFile(false, primary);
        ok := ok && bundleOk;
      }
    }

    /**
      The whole action, with a fault anywhere or nowhere.  An entry of another process is removed if
      and only if it was put in the place of ours between the stat and the unlink of the rollback.
      Without a fault the output holds exactly the two held files.  After a fault, when the calls of
      close and rollback succeed and nobody displaced our entries, nothing of ours is left if and only
      if no interrupt fell between the creation of the receipt file and the assignment of its descriptor.
    */
    method Publish() returns (ok: bool)
      requires Inv() && Clean() && bundle.None? && receipt.None? && stage == map[BUNDLE := bundleInode]
      requires !raced && !unwitnessed && !refused && !lostCreate && !blindClose
      modifies this
      ensures Inv() && (harmed <==> raced) && (!displaced ==> !harmed)
      ensures ok && !displaced ==> Complete()
      ensures !ok && !refused && !displaced && !blindClose ==> (Clean() <==> !lostCreate)
      ensures !ok && !refused && !unwitnessed ==> Clean()
    {
      ok := PublishBundle();
      if ok {
        ok := PublishReceipt();
      }
      if ok {
        ok := *;
      }
      var closed := CloseFiles(!ok);
      ok := ok && closed;
      if ok {
        ok := *;
      }
      if !ok {
        RollbackFile(true);
        RollbackFile(false);
      }
    }
  }
}
