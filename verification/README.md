# Verification of the delivery tools

A Dafny model of the delivery and reproduction tools of the repository, one module per engine, and
proofs of what those tools are for.  `dafny verify dfyconfig.toml` checks everything.

| module | engine | main results |
|---|---|---|
| `FileSync` | the owner of concurrent file flushes | no use after close, one close per duplicate, all flushed after a drain, in every interleaving and on every failure path |
| `HeldDirectory` | held directories and borrowed views | one owner closes each descriptor; a view whose lender closed is refused for good, whatever numbers are reused |
| `CopyBudget` | disk budgets while copying | the exact difference between incremental charges and a full rescan, and when they dominate it; sum of maxima |
| `BundleWire` | the bundle file format | stream and file are the same bytes; reading and framing are inverse through reads of any size |
| `Publication` | publishing bundle and receipt | all or nothing after a fault at any step, with the exact exception; exactly when a foreign entry is harmed |
| `DependencyPlan` | planner, independent checker, shards | both compute the same least fixpoint; shards cover the rest exactly once |
| `RuntimeClosure` | library resolution | what a name means, termination, least closure, independence of the order |
| `RuntimeAssembly` | the portable runtime and its verifier | what is assembled is accepted, with the exact condition on executable sizes |
| `Elf` | the two ELF readers | in-range reads, every name from its own dynamic entry, disjoint loads and one entry segment |
| `Installer` | install, uninstall and their record | exact rollback, only owned and matching files touched, own records readable |
| `YogaTask` | the staging task | cleanup restores the parent exactly when all it made was recorded and witnessed; exactly when it harms others |
| `Fd2Observer` | the ptrace observer and its parser | the latch, unreachable faults, every record accepted |
| `ThreadCensus` | streaming status parser and records | independence of the cut, agreement with a plain reading, round trips |

`Basics` holds what several of them share: options, orders and sorting, slash-separated text,
little-endian numbers.  `Interference` says what a directory looks like after other programs acted on
it, and which of their acts decides an entry.

How the world is modelled.  A system call happens or fails without effect.  Which calls fail, what
the scheduler does, what `fstat` shows and what other programs do in between is left open (`*`), so
a contract covers every choice.  Descriptor numbers are reused; ghost generations tell their uses
apart.  Deadlines, ownership and mode checks are refusals that may come at any time.  SHA-256, JSON,
`patchelf`, `module_descriptors` and path lookup are function values; where a property of them is
needed it is a precondition with a name: `PatchKeepsMachine` (patchelf leaves the ELF machine alone),
`JsonInverse` (decoding inverts encoding), `WritesRest` (an encoded record is at least as long as
its free-form part) and `CollisionFree` (no two contents have the same SHA-256).  Others act between
any two system calls, also between the comparison of an entry and the unlink behind it.  They hold no
second link to the inodes that `Publication` publishes.

Where a promise turned out not to hold as it stands, the code is modelled as it is and the exact
condition is proved, with an example where the condition does not already name one:

- The blocks of a copy's destination directory are counted by the baseline scan but charged from the
  first look at it, so growth in between is not charged (`CopyBudget.GrowthUncharged`,
  `CopyBudget.DestinationCovered`, `CopyBudget.CopySourceTree`).
- An interrupt between the creation of the pending receipt and the assignment of its descriptor
  leaves that file behind (`Publication.Publication.Publish`).
- The rollback of a publication and the cleanup of a staging task compare an entry and then unlink
  it by name.  An entry of another program is removed if and only if it was put there in between
  (`Publication.RaceRemovesForeign`, `Publication.UnlinkRace`, `Publication.Publication.Publish`;
  `YogaTask.RaceRemovesOther`, `YogaTask.RemovalRace`, `YogaTask.Task.Cleanup`).
- An interrupt between a staging task's `mkdir` or `open` and the record of it leaves that entry
  behind, and for the root the cleanup does not report it (`YogaTask.StageAndClean`).
- An ownership record longer than 8 MiB is written but refused by every later call
  (`Installer.LongRecordRefused`, `Installer.OwnRecordRead`, `Installer.RunKeepsRecord`).
- Above its size bound the status parser's reason for refusing depends on how the input was cut,
  exactly when the part up to the bound is already refused for its shape
  (`ThreadCensus.ReasonDependsOnCut`, `ThreadCensus.ReasonOfCut`); acceptance and fields never do
  (`ThreadCensus.ChunksRead`).
- A runtime assembled with a raised executable limit is rejected by the verifier exactly when one of
  the two given executables is, once patched, larger than the default limit
  (`RuntimeAssembly.AssembleLinux`).
- A launcher template that its generator accepts is refused by the assembler exactly when a header
  other than a load claims more file bytes than memory (`Elf.OddDisagreement`,
  `Elf.TemplateMetadata`).
- The observer can end with a pending task without facts, exactly when the loop ended at the failed
  sample of a task that never had one (`Fd2Observer.UnsampledWrite`, `Fd2Observer.Observer.Run`).

## Model

| member | source | states |
|---|---|---|
| `FileSync.WorkSound` | nix/home_manager_acquisition.py:391-411 | any step of any worker, at any moment, keeps the shared state sound: no fsync reaches a number that is closed or was reused, and other leases are untouched |
| `FileSync.ForeignSound` | nix/home_manager_acquisition.py:382-445 | opens and closes elsewhere in the process, on any number that is free or not a duplicate, keep the shared state sound, so number reuse cannot mislead a lease |
| `FileSync.CloseHeldSound` | nix/home_manager_acquisition.py:433-445 | giving back one of a finished lease's two duplicates leaves every other lease's duplicates open and its own close counted once |
| `FileSync.FileSyncOwner.Cancel` | nix/home_manager_acquisition.py:413-417 | after cancel a lease is no longer pending: it was cancelled, or a worker has it; its duplicates stay, and no other lease loses anything |
| `FileSync.FileSyncOwner.Result` | nix/home_manager_acquisition.py:419-431 | a finished run is counted exactly once however often it is asked for, and its error, or a cancellation that is not allowed, is raised |
| `FileSync.FileSyncOwner.CloseLease` | nix/home_manager_acquisition.py:433-445 | both duplicates of the lease get one close attempt, whatever the first attempt gave and whoever reuses its number before the second; no other lease holds less than before |
| `FileSync.FileSyncOwner.DupBoth` | nix/home_manager_acquisition.py:480-492 | either two fresh duplicates are held, or none is and the first was given back |
| `FileSync.FileSyncOwner.Register` | nix/home_manager_acquisition.py:484-489 | the lease is owned before its callable is queued, also when the call raises after queueing it and a worker has claimed it meanwhile |
| `FileSync.FileSyncOwner.Admit` | nix/home_manager_acquisition.py:476-512 | success registers exactly one new lease; a failure at any point, with the callable queued and already running or not, gives both duplicates back once, closes the owner and loses none |
| `FileSync.FileSyncOwner.Submit` | nix/home_manager_acquisition.py:463-512 | at most four leases are registered; a closed owner or a completed failure admits nothing; success appends one lease, after finishing the oldest when the queue was full |
| `FileSync.FileSyncOwner.CheckFailed` | nix/home_manager_acquisition.py:514-522 | it raises for a failure completed before the call, and only for a completed failure |
| `FileSync.FileSyncOwner.WaitForHead` | nix/home_manager_acquisition.py:524-533 | the wait for the oldest lease ends, and a normal return means its worker is done or it was cancelled |
| `FileSync.FileSyncOwner.CheckHead` | nix/home_manager_acquisition.py:534-542 | while all others run: the oldest lease is counted if it ran, and success without an earlier fault means that every lease outside the rest of the queue was flushed without error, has an unchanged witness and one charge |
| `FileSync.FileSyncOwner.FinishHead` | nix/home_manager_acquisition.py:534-550 | whatever the checks gave, exactly the oldest lease leaves the queue and its duplicates are closed, while all others run |
| `FileSync.FileSyncOwner.FinishOne` | nix/home_manager_acquisition.py:524-550 | success takes exactly the oldest lease out of the queue; a failure leaves it at the head for the exit or takes it out with both duplicates closed, so none is lost or closed twice |
| `FileSync.FileSyncOwner.Drain` | nix/home_manager_acquisition.py:552-555 | a normal return empties the queue, and, if no earlier call of the owner failed, every file ever admitted was flushed without error, with an unchanged witness and its final allocation charged |
| `FileSync.FileSyncOwner.AwaitCancelled` | nix/home_manager_acquisition.py:560-577 | the wait ends: a lease that is no longer pending gets finished, while every other worker and the rest of the process go on |
| `FileSync.FileSyncOwner.CleanupLease` | nix/home_manager_acquisition.py:560-577 | a lease outside the queue is waited for, counted if it ran, and both its duplicates are closed, while all others run |
| `FileSync.FileSyncOwner.Exit` | nix/home_manager_acquisition.py:579-606 | after any history and in every interleaving of its steps with workers and foreign opens and closes: nothing pending, no number ever misused, every duplicate's close attempted exactly once, and the progress counter equals the number of leases a worker claimed, up to its cap |
| `FileSync.CopySession` | nix/home_manager_acquisition.py:448-606 | the same for a whole with-block of submits and drains cut short anywhere; success means every admitted file was flushed |
| `HeldDirectory.Directories.Open` | nix/home_manager_acquisition.py:217-274 | a new view, borrowed or not, is open with all its lenders and its descriptor numbers are genuine; on failure of any open or fstat all it opened is closed |
| `HeldDirectory.Directories.Descend` | nix/home_manager_acquisition.py:228-263 | one more descriptor; none is lost whether the open fails or the fstat behind it |
| `HeldDirectory.Directories.CloseUnseen` | nix/home_manager_acquisition.py:228-236 | a descriptor whose fstat failed is closed exactly once and belongs to no view |
| `HeldDirectory.Directories.CheckLifetimes` | nix/home_manager_acquisition.py:288-299 | the ownership part of a check passes exactly when the view is complete and it and every view it borrows from, directly or not, are open |
| `HeldDirectory.Directories.Check` | nix/home_manager_acquisition.py:276-308 | a passing check means that every number in the chain still stands for the descriptor that was put there; a view with a closed lender never passes |
| `HeldDirectory.Directories.CloseNumbers` | nix/home_manager_acquisition.py:317-333 | the chain's own numbers, last first, each still standing for the descriptor this view opened when it is closed, although numbers closed before it are reused at once |
| `HeldDirectory.Directories.Close` | nix/home_manager_acquisition.py:317-333 | exactly the descriptors this view opened get their one close attempt, no borrowed one does, and every view that borrows from it is dead |
| `HeldDirectory.Directories.CheckCopyAnchors` | nix/home_manager_acquisition.py:357-366 | checking only the genuine borrowed view establishes the same for the view it borrows from |
| `HeldDirectory.OpenIsGenuine` | nix/home_manager_acquisition.py:250-262 | as long as a borrow chain is open no number in it can have been reused |
| `HeldDirectory.DeadForever` | nix/home_manager_acquisition.py:292-299 | once a view of a borrow chain has closed, the borrower stays refused through any later opens and closes |
| `HeldDirectory.Session` | nix/home_manager_acquisition.py:217-333 | any run of opens, borrows, checks and closes, everything closed at the end: no number was ever misused, each descriptor had exactly one close attempt, and no check passed for a view after one refused it for a closed lender |
| `CopyBudget.Usages.Discover` | nix/home_manager_acquisition.py:728-744 | every name is counted before anything below, and a refusal means a limit is exceeded by the whole directory |
| `CopyBudget.Usages.Visit` | nix/home_manager_acquisition.py:718-788 | the running totals grow by exactly the recursive sum, and a refusal means the whole scan exceeds a limit or the budget |
| `CopyBudget.PrivateUsage` | nix/home_manager_acquisition.py:711-813 | the scan returns the plain totals, and refuses exactly when a depth, path, file, inventory or disk limit is exceeded |
| `CopyBudget.ReplaceScan` | nix/home_manager_acquisition.py:711-788 | replacing one directory anywhere in a tree changes the totals by the difference of the two directories' own totals |
| `CopyBudget.ScanReal` | nix/home_manager_acquisition.py:739-786 | block counts enter a scan only as their sum over the inodes of the tree |
| `CopyBudget.ChargeBalance` | nix/home_manager_acquisition.py:1007-1011 | for every history of looks at an inode: what is charged is its net rise plus everything it fell in between |
| `CopyBudget.Copier.ChargeBlocks` | nix/home_manager_acquisition.py:1007-1011 | for any count that fstat shows, the charge and last count of every inode stay those of its own history of looks |
| `CopyBudget.Copier.Finish` | nix/home_manager_acquisition.py:524-555 | flushes that finish at any moment charge their file once more without losing the account |
| `CopyBudget.Copier.CopyFile` | nix/home_manager_acquisition.py:1045-1080 | a copied file is charged its exact size and at least its last blocks, for any cut into reads and writes |
| `CopyBudget.Copier.Visit` | nix/home_manager_acquisition.py:1022-1093 | every child of the source is made in order, its nodes and bytes are charged exactly and at least its true path lengths |
| `CopyBudget.CopySourceTree` | nix/home_manager_acquisition.py:976-1101 | the copy has the source's names, kinds and sizes; the exact difference between the incremental space and that of a full scan of the final tree; the charges dominate that scan if and only if the destination had not grown by the first look by more than what later fell, and then the final scan is within the budget |
| `CopyBudget.DestinationCovered` | nix/home_manager_acquisition.py:1026-1028 | for each history of the destination the charges cover its last count if and only if its growth before the first look is no more than its later falls; for all histories if and only if it did not grow |
| `CopyBudget.GrowthUncharged` | nix/home_manager_acquisition.py:1026-1028 | a history in which eight blocks are never charged |
| `CopyBudget.Reconstruction.Record` | nix/home_manager_bundle.py:641-658 | the space always equals the sum over all inodes met of the largest count recorded for each, also when the budget is found exceeded |
| `BundleWire.EntriesOrder` | nix/home_manager_bundle.py:255-259 | the entries are the regular nodes of the three trees, none dropped or repeated, tree by tree and by path within each |
| `BundleWire.WriteAll` | nix/home_manager_bundle.py:261-267 | all of the data is written however little each write takes |
| `BundleWire.Pack` | nix/home_manager_bundle.py:297-328 | the file is exactly the frame of headers and contents; refused exactly when an input is not as described or the frame is too long |
| `BundleWire.RepresentationStream.constructor` | nix/home_manager_bundle.py:703-705 | a new stream is about to yield the frame that packing the same inputs would write |
| `BundleWire.RepresentationStream.Next` | nix/home_manager_bundle.py:707-723 | each piece is the next at most 65536 bytes, and an empty one comes only at the end or at an input that is not as described |
| `BundleWire.RepresentationStream.Read` | nix/home_manager_bundle.py:730-743 | exactly the amount asked for, for any sequence of amounts, and fewer only at the end |
| `BundleWire.Source.Exact` | nix/home_manager_bundle.py:464-473 | all of the bytes or a refusal, whatever pieces the source gives |
| `BundleWire.ReadHeaders` | nix/home_manager_bundle.py:478-481 | the four headers of the plain reading, refused exactly where that is |
| `BundleWire.ReadFiles` | nix/home_manager_bundle.py:528-546 | every file in its place with its exact contents and nothing left over; refused for short or trailing bytes and for a name twice |
| `BundleWire.Materialize` | nix/home_manager_bundle.py:475-546 | through any source the result is that of the plain reading of its bytes, laid out as a tree |
| `BundleWire.ParseFrame` | nix/home_manager_bundle.py:475-546 | the plain reading of a frame within the limits recovers its headers and every file |
| `BundleWire.ParsedIsFrame` | nix/home_manager_bundle.py:475-546 | whatever is accepted is the frame of what was read, to the last byte |
| `BundleWire.Reconstruct` | nix/home_manager_bundle.py:946-962 | streaming good inputs into a materialization restores headers and files; with a bad input it is refused |
| `BundleWire.PackThenMaterialize` | nix/home_manager_bundle.py:297-328 | writing the file and reading it back in reads of any size restores headers and files |
| `Publication.Publication.Rename` | nix/home_manager_bundle.py:786-796 | whatever stood under another name still stands there, nothing of others is overwritten, and the receipt comes into place only beside the bundle; also when it fails or is interrupted after its effect |
| `Publication.Publication.Inspect` | nix/home_manager_bundle.py:815-821 | success means the name held exactly this file at that moment |
| `Publication.Publication.Promote` | nix/home_manager_bundle.py:823-833 | the new name is recorded before it can exist, and success means the file is there |
| `Publication.Publication.PublishBundle` | nix/home_manager_bundle.py:981-1004 | the held bundle is at its name, or whatever it left is recorded for the rollback |
| `Publication.Publication.CreateReceipt` | nix/home_manager_bundle.py:1005-1009 | either a held, recorded new file or none, except for an interrupt between the creation and the assignment |
| `Publication.Publication.PublishReceipt` | nix/home_manager_bundle.py:1005-1019 | the receipt appears under its name only while our bundle is under its own, also when interrupted; excused only where others displaced the bundle |
| `Publication.Publication.CloseFile` | nix/home_manager_bundle.py:835-844 | the file is closed and its last facts kept; a successful close means its name still held it |
| `Publication.Publication.CloseFiles` | nix/home_manager_bundle.py:856-875 | both files are closed on every path; without a fault the output holds exactly the two |
| `Publication.UnlinkRace` | nix/home_manager_bundle.py:889-896 | what the unlink finds under a name that the stat showed to be ours is foreign if and only if the last thing done to that name in between was to put another entry there |
| `Publication.RaceRemovesForeign` | nix/home_manager_bundle.py:889-896 | acts of another program in that window after which the unlink removes its file |
| `Publication.Publication.RollbackName` | nix/home_manager_bundle.py:877-901 | a name is unlinked only after it was seen to hold this action's own file with its witness; a foreign entry goes if and only if it was put there between that look and the unlink; our other entries stay |
| `Publication.Publication.RollbackFile` | nix/home_manager_bundle.py:877-901 | with its calls succeeding nothing of the file is left, receipt before bundle |
| `Publication.Publication.Publish` | nix/home_manager_bundle.py:946-1026 | a fault anywhere: a foreign entry is removed if and only if it was put under our name between the rollback's look and its unlink; our receipt is never there without our bundle unless others displaced an entry, a close lost its last look or a rollback call failed; success leaves exactly both files; after a fault, with none of those three, nothing of ours is left if and only if no interrupt fell between the receipt's creation and the assignment of its descriptor |
| `DependencyPlan.Obtain` | tools/codex_dependency_bundle.py:291-311 | the first source that has the object decides, and a refusal that is not a budget means that it gave other bytes |
| `DependencyPlan.SelectMissing` | tools/codex_dependency_bundle.py:332-340 | for each missing digest its least row, metadata first, each digest once |
| `DependencyPlan.BuildPlan` | tools/codex_dependency_bundle.py:273-351 | descriptors are the least admissible fixpoint of the expansion over the sources; a refusal that is not a budget means there is none |
| `DependencyPlan.VerifyPlanAuthority` | tools/codex_dependency_bundle.py:354-384 | accepts exactly the plans whose descriptors are the least admissible fixpoint over the exported bytes and whose objects and missing rows divide their digests |
| `DependencyPlan.PlanIsAuthorised` | tools/codex_dependency_bundle.py:354-384 | every plan that was made is authorised over its own export; objects and missing digests are disjoint and together are the descriptor digests |
| `DependencyPlan.PlanThenVerify` | tools/codex_dependency_bundle.py:273-384 | what the planner returns, the checker accepts |
| `DependencyPlan.TransferLeast` | tools/codex_dependency_bundle.py:366-376 | the fixpoint depends on the lookup only through the digests of its own rows, so cache and export give the same one |
| `DependencyPlan.MoreSources` | tools/codex_dependency_bundle.py:289-341 | with sources added anywhere in the list no descriptor or object is dropped or changed, and no digest that any source holds stays missing; without hash collisions |
| `DependencyPlan.SelectedShard` | tools/codex_dependency_bundle.py:387-402 | a shard is admitted exactly for a nonempty slice of a well-formed plan, and is that slice |
| `DependencyPlan.ShardsCover` | tools/codex_dependency_bundle.py:387-402 | the consecutive shards of a plan are all admitted, give the missing list exactly once in order, and share no digest |
| `RuntimeClosure.MeaningDeclared` | delivery/portable.py:392-424 | a name only ever means a declared, readable file of its own basename |
| `RuntimeClosure.MeaningExact` | delivery/portable.py:392-424 | a name means a file exactly when there are declared files that fit it and all have the same bytes: files of the audited digest, or with the exact alias, or in the first search directory that has any, or any declared file where none has |
| `RuntimeClosure.MeaningFirst` | delivery/portable.py:392-424 | of the files that fit, the one meant is the one declared first |
| `RuntimeClosure.Selection.Resolve` | delivery/portable.py:392-438 | the loops over candidates, digests and search directories find the file that `MeaningExact` describes; it is selected, or refused exactly when an earlier selection of the basename has other bytes |
| `RuntimeClosure.Selection.Visit` | delivery/portable.py:458-464 | everything an owner asks for becomes pending, and a refusal means a name without meaning or two meanings of one basename |
| `RuntimeClosure.FindLoader` | delivery/portable.py:442-452 | the loader of the first executable, exactly when all executables name it and mean the same bytes |
| `RuntimeClosure.Close` | delivery/portable.py:453-464 | the worklist ends for every order: it visits the least closed set around its roots, or no order can succeed |
| `RuntimeClosure.ResolveNamespace` | delivery/portable.py:440-466 | success, the visited owners and the selection are characterised without the order in which pending owners are taken |
| `RuntimeClosure.OrderFree` | delivery/portable.py:453-466 | two runs in any orders agree on success, on the visited owners and on the bytes selected for every basename |
| `RuntimeAssembly.LinuxLauncher` | delivery/portable.py:210-227 | the record filled in place is the launch record of loader, role, channel and machine |
| `RuntimeAssembly.LauncherInjective` | delivery/portable.py:210-227 | a launcher determines its loader, role and channel, so the equality tests of the verifier distinguish them |
| `RuntimeAssembly.CanonicalIdempotent` | delivery/portable.py:273-302 | a validated resolution witness validates to itself and names the same libraries |
| `RuntimeAssembly.StageOne` | delivery/portable.py:476-500 | an input is packaged as its patched bytes exactly when those are confined to the process's closure |
| `RuntimeAssembly.StageNamespace` | delivery/portable.py:471-500 | succeeds exactly when every input can be packaged; executables, libraries and plugins then stand under distinct names, each confined and each made from its own input |
| `RuntimeAssembly.AssembleCore` | delivery/portable.py:440-512 | the namespace passes every test of the verifier except perhaps the executables' size and holds exactly the resolved closure; it is made whenever the inputs are admissible and every resolution can be packaged |
| `RuntimeAssembly.AssembleQt` | delivery/portable.py:440-525 | the same for the Qt namespace, with each plugin from its own path, the configuration and the canonical form of the given audit |
| `RuntimeAssembly.PluginSources` | delivery/portable.py:320-328 | plugins are indexed by basename without loss, refused exactly for another kind of file or a name twice |
| `RuntimeAssembly.NamespacesApart` | delivery/portable.py:550-551 | the two namespaces never share a name, so the overlap refusal is unreachable |
| `RuntimeAssembly.Archive` | delivery/portable.py:517-524 | every audited library and the control executable are bound to the bytes they were packaged with |
| `RuntimeAssembly.MetadataLimit` | delivery/portable.py:87-88 | the size limit decides only whether a file is read, never what is read from it |
| `RuntimeAssembly.FitsByInputs` | delivery/portable.py:476-490 | the packaged executables are within the verifier's limit if and only if the two given executables are once they are patched |
| `RuntimeAssembly.CheckGraph` | delivery/portable.py:647-660 | passes exactly when every file of the graph parses, has the machine and is confined to the closure |
| `RuntimeAssembly.VerifyLinuxRuntime` | delivery/portable.py:558-665 | accepts exactly the archives whose names, launchers, certificate bundle, ELF graph and bound audit meet the declarative condition that assembly is proved against |
| `RuntimeAssembly.AssembleLinux` | delivery/portable.py:528-555 | whatever is assembled is accepted under the same target and channel, with or without Qt and audit, if and only if the two given executables, patched, fit the verifier's limit, which they do when it was used; every file is made from the input it stands for; and admissible inputs are always assembled |
| `Elf.ScanSegments` | delivery/portable.py:96-121 | all headers in range; loads, the one dynamic segment and the one interpreter, exactly when each header is acceptable |
| `Elf.ReadEntries` | delivery/portable.py:122-134 | the dynamic entries before the terminator; refused without one or at a refused tag |
| `Elf.ElfMetadata` | delivery/portable.py:76-156 | the loops give exactly the metadata of the declarative reading, refused exactly where that is |
| `Elf.AcceptedNames` | delivery/portable.py:122-156 | the needed names are the NUL-terminated strings at the DT_NEEDED values, in order and number, in the table that the one DT_STRTAB and DT_STRSZ give inside the file-backed part of exactly one load; so are the search paths, each split at its colons; without a dynamic segment there are none |
| `Elf.SplitJoins` | delivery/portable.py:155-155 | the parts of a search path have no colon, and joined with colons they give the string back |
| `Elf.AcceptedInterpreter` | delivery/portable.py:111-119 | an accepted interpreter is the one string that fills its segment, and there is none without such a segment |
| `Elf.CheckSegments` | delivery/generate_portable_launcher_template.py:48-70 | accepts exactly when every program header is acceptable, and gives the spans, the entry and the stack headers |
| `Elf.CheckSections` | delivery/generate_portable_launcher_template.py:78-96 | accepts exactly a section table that is absent or in range with acceptable sections |
| `Elf.Sort` | delivery/generate_portable_launcher_template.py:75-75 | the sorted list has the same members, and is pairwise apart exactly when the given one is |
| `Elf.ChainedIsApart` | delivery/generate_portable_launcher_template.py:76-77 | in sorted order comparing neighbours decides whether all spans are pairwise apart |
| `Elf.ValidateTemplate` | delivery/generate_portable_launcher_template.py:27-98 | accepts exactly the templates of the declarative description |
| `Elf.TemplateEntry` | delivery/generate_portable_launcher_template.py:48-77 | the loads of an accepted template are pairwise disjoint and its entry is in exactly one, which is executable and not writable |
| `Elf.TemplateMetadata` | delivery/portable.py:185-202 | an accepted template also passes the assembler's reading as a static file if and only if no header claims more file bytes than memory |
| `Elf.OddDisagreement` | delivery/portable.py:185-202 | a template that the generator accepts and the assembler refuses |
| `Installer.OwnRecordRead` | delivery/install.py:103-128 | a record the tool wrote is accepted later if and only if its JSON is at most 8 MiB |
| `Installer.LongRecordRefused` | delivery/install.py:103-128 | an installation whose own record every later call refuses |
| `Installer.PlannedFew` | delivery/install.py:159-199 | a bundle and a service never make more files than a record may list |
| `Installer.InstallRecordOk` | delivery/install.py:220-232 | every record an installation writes has distinct, managed, absolute paths with allowed modes |
| `Installer.Installation.CheckTargets` | delivery/install.py:202-208 | passes exactly when every destination that exists is recorded and unmodified |
| `Installer.Installation.FindObsolete` | delivery/install.py:209-214 | lists the recorded paths no longer wanted, and passes exactly when those are unmodified |
| `Installer.Installation.Rollback` | delivery/install.py:241-251 | with its writes succeeding the disk is exactly as before the transaction, modes and absences included |
| `Installer.Installation.Transact` | delivery/install.py:233-252 | all written, obsolete removed and recorded; or, whichever step failed, rolled back |
| `Installer.Installation.Install` | delivery/install.py:142-252 | refused exactly for the listed reasons and then without effect; a failed installation whose rollback succeeds leaves the disk as it was; only recorded, matching files are changed |
| `Installer.Installation.Uninstall` | delivery/install.py:255-279 | removes exactly the files that match, and the record then lists exactly those that remain, or is gone |
| `Installer.KeptRemain` | delivery/install.py:263-276 | an entry stays in the record if and only if its file is still there |
| `Installer.Run` | delivery/install.py:142-279 | in any run of installs, uninstalls and outside edits each call touches only recorded, matching files |
| `Installer.RunKeepsRecord` | delivery/install.py:103-128 | along such a run the record stays the tool's own, and is read back if and only if it is not too long |
| `Installer.InstallUninstall` | delivery/install.py:255-279 | the record of a fresh installation keeps nothing back if and only if every file can be trusted and is at most 128 MiB |
| `Installer.InstallThenUninstall` | delivery/install.py:142-279 | both calls one after the other leave the disk as it was before, less what was planned, obsolete or recorded, if and only if every file can be trusted and is at most 128 MiB; a record that is too long makes the second call fail |
| `Installer.AcceptedRecordable` | delivery/portable.py:580-613 | every runtime path of an archive that the portable verifier accepts may stand in a record |
| `YogaTask.AddOwn` | delivery/yoga_stage.py:170-177 | making an entry keeps what the task owns placed, covered and apart from everything else |
| `YogaTask.RemoveOwn` | delivery/yoga_stage.py:296-317 | so does removing one, and the entry is where and what it was recorded to be |
| `YogaTask.RemovalRace` | delivery/yoga_stage.py:302-315 | what the unlink or rmdir finds under a key that the stat showed as recorded is something else if and only if the last thing done to that key in between was to put another inode there |
| `YogaTask.RaceRemovesOther` | delivery/yoga_stage.py:302-306 | acts of another program in that window after which the unlink removes its file |
| `YogaTask.Task.Create` | delivery/yoga_stage.py:123-148 | the new root is witnessed, or the task knows that it is not, or an interrupt before the flag was set lost it |
| `YogaTask.Task.Walk` | delivery/yoga_stage.py:161-190 | the directory reached is the recorded one, step by step, and an undisturbed one is always reached |
| `YogaTask.Task.NewEntry` | delivery/yoga_stage.py:172-174 | an entry is made and recorded before it is witnessed; one that an interrupt between the two lost is latched as such |
| `YogaTask.Task.Reach` | delivery/yoga_stage.py:161-190 | missing directories are made, recorded and witnessed on the way, and the one reached is the recorded one; an interrupt loses at most one |
| `YogaTask.Task.Write` | delivery/yoga_stage.py:192-231 | success means the new file is under its name, with the recorded inode, in the directory recorded for its parent path; no earlier record changes |
| `YogaTask.Task.RemoveFiles` | delivery/yoga_stage.py:296-309 | every recorded file is unlinked after a look that showed its recorded inode; another inode goes if and only if it was swapped in behind that look |
| `YogaTask.Task.RemoveDirectories` | delivery/yoga_stage.py:310-317 | the same for every recorded directory, deepest first, each empty |
| `YogaTask.Task.Cleanup` | delivery/yoga_stage.py:289-321 | undisturbed and with its calls succeeding it restores the parent exactly if and only if nothing was made or all of it was recorded and witnessed, and reports success exactly then or where the flag of the root was never set; disturbed, it removes something of others if and only if that was swapped in between a look and the unlink |
| `YogaTask.StageAndClean` | delivery/yoga_stage.py:123-321 | a whole run stopped at any call and cleaned up leaves the entries exactly as before if and only if nothing was made or all of it was recorded and witnessed; the cleanup reports success exactly then, except for an interrupt between the making of the root and its flag |
| `Fd2Observer.Table.Add` | delivery/native_fd2_observer.c:63-71 | one slot per task id; refused exactly when the id is new and the table is full |
| `Fd2Observer.Table.RemoveTask` | delivery/native_fd2_observer.c:72-75 | exactly the task with this id is gone after the swap, and ids stay distinct |
| `Fd2Observer.TracksUpdate` | delivery/native_fd2_observer.c:427-442 | changing one task's slot at a syscall stop keeps the table in step with the history of events |
| `Fd2Observer.TracksExec` | delivery/native_fd2_observer.c:410-417 | so does an exec that takes over another task's id |
| `Fd2Observer.Observer.HandleSyscall` | delivery/native_fd2_observer.c:418-444 | entry and exit stops keep the table in step with the history and the first successful sampled write latched; a pending task lacks facts exactly after the failed sample of a task that never had one |
| `Fd2Observer.Observer.HandleExec` | delivery/native_fd2_observer.c:410-417 | the task is always found after an exec, so the exec-table fault is unreachable |
| `Fd2Observer.Observer.Run` | delivery/native_fd2_observer.c:360-451 | for every event sequence ids stay distinct and the latch holds the first write of the history; pending tasks are complete unless, and exactly if, the loop ended at the failed sample of a task that never had one; the history is the events taken, without the last one where the loop broke off at it before resuming the task |
| `Fd2Observer.UnsampledWrite` | delivery/native_fd2_observer.c:427-434 | a run that ends with a pending task without facts |
| `Fd2Observer.Observer.Finish` | delivery/native_fd2_observer.c:452-466 | the one record fits its buffer and is accepted; observed carries exactly the first successful sampled write and no-write means there was none; a launch-table fault cannot appear |
| `Fd2Observer.TextAccepted` | delivery/native_fd2_observer.c:273-281 | every record the C program can print is accepted, field by field, by the Python parser |
| `Fd2Observer.Observe` | delivery/native_fd2_observer.c:307-466 | whatever happens, a record that is printed is accepted; past the fork it carries the first successful sampled write of the events taken, observed means there was one and no-write that there was none |
| `ThreadCensus.Projection.Feed` | delivery/native_thread_census.py:66-95 | one chunk takes the object through exactly the steps of the byte machine, unless the size bound is passed |
| `ThreadCensus.StepsRead` | delivery/native_thread_census.py:54-95 | the byte machine, started anywhere in a line, agrees with the plain line-by-line reading of that line and the rest |
| `ThreadCensus.ChunksRead` | delivery/native_thread_census.py:66-95 | acceptance and fields do not depend on how the bytes are cut, nor does the reason of a refusal within the size bound |
| `ThreadCensus.ReasonOfCut` | delivery/native_thread_census.py:66-95 | the reason of a refusal is the same for every cut of a text if and only if the text is within the size bound or its first part up to the bound is not refused for its shape |
| `ThreadCensus.ReasonDependsOnCut` | delivery/native_thread_census.py:66-69 | such a text exists |
| `ThreadCensus.NumberExact` | delivery/native_thread_census.py:42-51 | exactly the decimal text of a number of at most ten digits within its maximum, positive where asked, is accepted, and as that number |
| `ThreadCensus.Finish` | delivery/native_thread_census.py:97-117 | an accepted result has all fields, a positive process id that is its own only namespace id, and four user ids |
| `ThreadCensus.ReadStatus` | delivery/native_thread_census.py:54-117 | a status file read in pieces of any size gives what the plain reading of its text gives; above the bound it is refused, for its size or, where the first part is, for its shape |
| `ThreadCensus.DecimalDigits` | delivery/native_thread_census.py:42-51 | writing and reading a number are inverse, without leading zeros |
| `ThreadCensus.RecordParses` | delivery/native_thread_census.py:134-162 | every record that can be written is read back as what it was written from |
| `ThreadCensus.ParsedIsRecord` | delivery/native_thread_census.py:134-162 | a payload is read as a value if and only if it is the record written for that value |

## Left out

- Process launching and supervision, locks, real path walking, statfs and procfs checks: taken as refusals that may come at any time.
- The contents of JSON documents, receipts and manifests, and pinned digests: single-branch schema checks.
- Gzip, tar, base64 and PEM: library formats, used only through function values.
- Other tools of the repository (native clients, diagnostics, service files): easy claims only.
- `verify` of the staging task: it only reads and would add no new state.
- The rewriting of service templates during an installation: the text that is written is a parameter.
- Directories that an installation creates: they are not part of the modelled disk and are not removed by a rollback.
- Records in which another program spelled one path in two ways: paths are lists of parts.
- The optional fields of a dependency plan (unresolved items, derivations, origins): they do not take part in the checker's decision.
- Publication.Publication.Publish: where others displaced an entry of ours, a close lost its last look at the file or a rollback call failed, it does not say what is left; the names inside the private tree and its cleanup are not modelled, only the output directory.
- CopyBudget.CopySourceTree: the destination is the empty directory made for the copy, under one of the names it can have there, and nothing else changes the private tree meanwhile.
- Publication.Publication.Rename: a rename may move an entry that another program put in the place of ours; only removal and overwriting are excluded.
- FileSync.FileSyncOwner.Exit: the executor's own shutdown is one call that may fail, after all leases are settled.
- DependencyPlan.BuildPlan: budgets, free space, the object count and object sizes are refusals that may come at any time.
- RuntimeClosure.ResolveNamespace: alias sets and path expansion are function values, so cyclic alias chains are not modelled.
- RuntimeAssembly.VerifyLinuxRuntime: tests that only compare JSON types are left to the type system.
- YogaTask.Task.Cleanup: what is left when others disturb the tree is not said, only whether something of theirs is removed.
- YogaTask.Task.Write: file contents, sizes and digests are one refusal; only which entry exists and its inode are modelled.
- Fd2Observer.Observe: sampling of image, sink and origin is an event whose facts are given, and the checks before the fork are one refusal each.
