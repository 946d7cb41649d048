# Verification of Varis' burn and recovery core

Varis archives files to write-once discs. This project models the part of it that must not
be wrong: packing staged files onto discs, burning and recording them, building cross-disc
XOR parity, and getting a file back when its disc is lost. `dafny verify dfyconfig.toml`
checks all of it.

## How it is built

| files | what they hold |
|---|---|
| `bytes`, `xordisk` | byte images, the XOR loops, order independence and the erasure law |
| `binpack`, `scan` | the data budget, next-fit packing and its optimality, the sorted listing |
| `diskid`, `plan`, `plan_props` | disc IDs, the planning loops, and the shape of the plan list |
| `tools` | the external programs as functions, the tar loops, spool names, one disc's contents |
| `burn_world` | the world the burn manager works on and its single steps |
| `burn_inv`, `burn_keep`, `burn_keep_data` | the invariant and why every step keeps it |
| `burn_runs`, `burn_facts`, `burn_meta`, `burn_ids` | what follows for whole runs |
| `burn_steps`, `burn_start`, `burn_commit`, `burn_manager` | the manager as a class; each of its changes is one of the steps |
| `burn_operator` | the operator's loop over a job, and exactly when it ends DONE |
| `reconstruct`, `retrieve` | the Reconstructor and the retrieval manager as classes |
| `recovery`, `recovery_operator` | the end-to-end theorem, for runs and for the two manager objects together |
| `records` | what a disc's row and its own table of contents say of it, along every run |
| `burn_histories` | histories of calls on the class that end badly |
| `burn_claims`, `retrieve_claims` | both managers under any number of threads |
| `stand_in` | tools that satisfy every assumed law, so the laws are consistent |

`BurnWorld.Act` says what one step may do: a file operation, a database statement, a state
change, what a program leaves behind, a restart of the process, or the user staging,
removing or tagging files and changing media. A run is any
sequence of such steps. The theorems about runs hold for all of them. The class
`BurnManager.Manager` follows `internal/burn/pipeline.go` statement by statement; every
change it makes is recorded in its ghost `trace`, and its contracts keep `trace` a run, so
the run theorems apply to every history of calls. Each call to a program, the database or
the file system may fail; the ghost counter `faults` lets the contracts say what happens
when none does. An `Environment` can promise that all calls work or that all fail, which is
how `burn_histories` makes its histories definite.

`World.media` is what was last written for each disc. For a filesystem job the disc is
whatever medium is mounted at the target path: `World.mounted` says which disc's image the
file there is. The user may take a medium away and put a recorded one back (`SwapMedium`,
`MountMedium`), and a disc that is written where a recorded one lies truncates it; from then
on that one counts as `World.overwritten`.

## Assumptions

* Tools (`Tools.Lawful`): reading back a tar, a gzip stream or a table of contents gives
  what was written; an entry extracted from a built image is the entry put in, also when
  zeros follow the image; an archive is no shorter than a member, an image no shorter than
  two of its entries, and a table of contents is not empty; par2verify accepts intact data
  with its own index; the hash is injective. `StandIn.LawsAreConsistent` exhibits tools that
  obey all of these.
* par2create may leave volume files besides its index (`Tools.volumes`, any or none); as the
  comment at internal/burn/pipeline.go:465-469 says, it refuses to run next to earlier ones.
* copyFile is exact when it reports success. wodim may report success and have written
  anything that fits on the medium. A database call that reports an error may still have
  taken effect.
* A filesystem target or a dry-run file takes an image of any size; an optical medium takes
  at most its capacity.
* Nobody edits spool from outside, or the planned files in staging while their job is not
  DONE. Other staged files may be replaced and removed at any time (`EditStaging`).
* The database hands out group IDs that are new and not empty. A media type's capacity is
  at retrieval what it was at the burn (`RecoveryOperator.SameCatalog`).
* Disc IDs are usable as file names (no `/`), and prefixes hold no LIKE wildcards. Where a
  result needs a prefix without a colon, it says so.

## Where the code and its words differ

The model follows the code.

* The comment on Pack (internal/binpack/binpack.go:52-55) says an oversized file shares a
  disc with nothing. It can share with zero-size files before it: see
  `BinPack.OversizedFileShares` for exactly when.
* The comment on buildParityPayload (internal/burn/pipeline.go:429-433) says ISOs are never
  deleted. A retry deletes the current disc's own, and cleanup a finished group's.
* README.md:93 of the repository says staged files are not deleted until a disc is DONE.
  They are deleted one by one while the disc is being recorded; each is by then on a
  verified disc with its row in place (`BurnRuns.LeavesStaging`).
* README.md:65 there says spool is cleaned up when a disc is DONE. Only data images of a
  group with a parity disc are (internal/burn/pipeline.go:402-404).

## What came out

* A job that fails while recording a disc, after the disc's row exists, can never be
  finished: retry meets the primary key or a missing file. `BurnOperator.FinishJob` says
  exactly which jobs can. Nothing is lost by it but at most one file's metadata.
* par2create's volume files are not cleared for a retry (finding F-1 of
  docs/handbook/varis-handbook.tex:690). If it writes any, a disc that fails after them never
  succeeds (`BurnHistories.RetryMeetsVolumes`). Every result about retrying depends on this:
  `BurnOperator.FinishJob` has it in its condition.
* An optical parity disc never fits on its medium (finding F-2 there, line 691), so an optical
  job with cross-disc parity never gets DONE: `BurnMeta.OpticalParityNeverRecorded`.
* Numbers are counted, but parity discs are numbered after all data discs of the job. A
  cross-parity job abandoned in between can leave a gap (`BurnIds.AbandonedJobLeavesNoGapIff`
  says exactly when), and then the count runs into a number that is taken: a history is
  `BurnHistories.AbandonJob`. From then on no disc of that prefix can be recorded any more
  (`BurnIds.WedgedForEver`). Only a parity disc's ID can be met again
  (`BurnMeta.CollisionsHitParityOnly`). If both discs are dry runs', that disc's file is then
  overwritten, and the group with it (`Recovery.StepKeepsGroupIff`); a history of that is
  `BurnHistories.DestroyGroup`. With volume files par2create would refuse there first. Groups
  of other prefixes, and other groups of the same one, are not affected
  (`Recovery.FinishedStaysKept`), and when jobs are given up only without a gap none is
  (`Recovery.OrderlyJobsAreRecoverable`).
* Every disc of a filesystem job is written to the same path. If the medium is not changed,
  the disc before is truncated after its files have left staging: `BurnHistories.OverwriteFirst`
  is a history without a single failure, `BurnRuns.StepLosesIff` the exact condition for a
  file to be lost.
* A disc image longer than the capacity, which a file target and a dry run accept, is not
  rebuilt whole: `Recovery.RebuiltIsWholeIff`.
* Abort, which no route calls, would let one job's reconstructor serve another's disc, if it
  came while a reconstruction is being started (`RetrieveClaims.AbortInFlightMixesDiscs`).
  At other moments it is harmless (`RetrieveClaims.ReconstructorSurvivesAborts`).

## Model

| member | source | states |
|---|---|---|
| `XorDisk.XOR` | internal/xordisk/xor.go:12-24 | The nested loops over a byte buffer leave the XOR of the images, cut or zero-padded to the length; `XorIsBytewise` says what that is. |
| `XorDisk.XorIsBytewise` | internal/xordisk/xor.go:12-24 | The XOR of no image is zeros; one more image changes each byte by its own byte there, or, past its end, not at all; appending the XOR itself gives zeros. |
| `XorDisk.XorConcat` | internal/xordisk/xor.go:3-24 | At every position the XOR of two lists of images together is the XOR of their XORs. |
| `XorDisk.XorOrder` | internal/xordisk/xor.go:3-7 | The result does not depend on the order of the images. |
| `XorDisk.XorCut` | internal/xordisk/xor.go:9-19 | Cutting operands to the XOR length beforehand changes nothing. |
| `XorDisk.Erasure` | internal/xordisk/xor.go:3-24 | For any images of any lengths and any `k`: all images but `k`, and the XOR of all, in any order, XOR to image `k` padded or cut to the length. |
| `BinPack.TargetIsDataBudget` | internal/binpack/binpack.go:19-23 | With int64 wrap-around and truncating division, the result is the largest data size that fits with its parity exactly when capacity <= (2^63-1)/100. |
| `BinPack.Pack` | internal/binpack/binpack.go:56-71 | The buckets split the files in order, carry true totals, none is empty, each fits (or is one file after zero-size files), and a bucket was closed only because the next file would overfill it. |
| `BinPack.PackIsOptimal` | internal/binpack/binpack.go:52-71 | No order-preserving split into disc-sized parts has fewer parts. |
| `BinPack.PackedIsUnique` | internal/binpack/binpack.go:56-71 | The promise of Pack determines its result. |
| `BinPack.NeighboursOverfill` | internal/binpack/binpack.go:60-63 | Two adjacent buckets together exceed the target. |
| `BinPack.DiscCountBound` | internal/binpack/binpack.go:56-71 | k buckets hold at least floor(k/2) * (target + 1) bytes. |
| `BinPack.BucketFitsDisc` | internal/binpack/binpack.go:21-71 | Every bucket plus its parity fits the capacity, unless it is one oversized file after only zero-size files. |
| `BinPack.OversizedFileShares` | internal/binpack/binpack.go:52-63 | An oversized file shares its bucket if and only if the file before it is zero-size and, going back over zero-size files, one meets the start of the list or another oversized file. |
| `BinPack.OversizedFileSharesExample` | internal/binpack/binpack.go:52-63 | A concrete list for which the comment on Pack ("won't share a disc with anything") does not hold. |
| `Scan.ScanStaging` | internal/binpack/binpack.go:25-50 | Every staged file once, with its size, in strictly ascending path order, whatever order the walk has. |
| `Scan.SortByPath` | internal/binpack/binpack.go:48 | The sorted list is a permutation of the walked one. |
| `Scan.ListingIsUnique` | internal/binpack/binpack.go:25-50 | What is staged determines the listing. |
| `Scan.BeforeIsLexicographic` | internal/binpack/binpack.go:48-49 | Paths are compared at the first character in which they differ, and a path comes before its extensions: the order of Go strings over these characters. |
| `DiskIds.TextInjective` | internal/db/disks.go:48 | Formatted IDs are injective in prefix and number, also above 9999 and for prefixes with colons. |
| `DiskIds.CountedIsOwnPrefix` | internal/db/disks.go:42-44 | Between prefixes without a colon, the LIKE pattern selects exactly the discs of the prefix. |
| `DiskIds.CountAfterInsert` | internal/db/disks.go:42-48 | Recording a disc raises the count of its prefix by one and lowers no count. |
| `DiskIds.NextIdsFreshIff` | internal/db/disks.go:33-49 | However many IDs are asked for in one pass, all are free if and only if the catalogued numbers of the prefix are exactly 1..count. |
| `Plan.AssignIds` | internal/burn/pipeline.go:148-158 | One ID per bucket, counting on from the catalogued discs; fails only when a query fails. |
| `Plan.TagGroup` | internal/burn/pipeline.go:184-188 | The data discs of one group get its ID and slots 0, 1, ... |
| `Plan.GroupPlans` | internal/burn/pipeline.go:174-201 | The loop computes the recursive grouping and registers the true group sizes; fails only when a query fails. |
| `Plan.PlanJob` | internal/burn/pipeline.go:140-202 | Packs the listing, numbers all data discs, then closes each group with a parity disc numbered after all data discs; every registered group but the last has exactly the requested number of data discs if that is above 1 and exactly 10 otherwise, the last at least one and at most that many. |
| `PlanProps.GroupCountIsCeiling` | internal/burn/pipeline.go:174-179 | ceil(n / size) groups, so as many parity discs. |
| `Plan.GroupSizesFull` | internal/burn/pipeline.go:175-183 | Every group but the last is full and none is empty. |
| `PlanProps.ErasingParity` | internal/burn/pipeline.go:174-200 | Leaving out the parity discs gives back the data discs in order. |
| `PlanProps.GroupedShape` | internal/burn/pipeline.go:174-200 | The list is a concatenation of blocks: data slots 0..m-1, then one parity disc at slot m; groups do not come back. |
| `PlanProps.GroupsAsRequested` | internal/burn/pipeline.go:164-200 | In every well-shaped plan list of a cross-parity job each parity disc directly follows the data discs of its group, in slots 0, 1, ...; its slot is their number, which is the requested group size, 10 if that is not above 1, or in the last group possibly less; the groups tile the list. Without cross parity there are no groups. |
| `PlanProps.PlannedIsOk` | internal/burn/pipeline.go:140-202 | Any successful planning pass over distinct paths gives a well-shaped plan list: distinct IDs, blocks, sizes, no path twice. |
| `PlanProps.IdsAreABlock` | internal/burn/pipeline.go:148-158 | The IDs of one pass are a permutation of count+1 .. count+plans. |
| `PlanProps.PlannedNumbers` | internal/burn/pipeline.go:148-199 | Data discs are numbered in order and, after all of them, the parity discs in order. |
| `BurnStart.PlanStaged` | internal/burn/pipeline.go:140-146 | Scan and plan together: the plan list is what planning makes of everything staged. |
| `BurnStart.PlanningCovers` | internal/burn/pipeline.go:140-202 | Every staged file is on exactly the plans of the job, with its true size. |
| `BurnStart.PlannedDiscsFit` | docs/handbook/varis-handbook.tex:607 | Every data disc planned for what is staged keeps its files and their parity within the capacity, unless it is one file too large for any disc, after files of size 0 only. |
| `BurnStart.GroupsRegistered` | internal/burn/pipeline.go:180-188 | Every group on the plans was registered. |
| `BurnStart.RegisteredSizesAreTrue` | internal/burn/pipeline.go:180 | The size given to NextGroupID is the number of data discs planned for the group. |
| `BurnStart.NothingPlanned` | internal/burn/pipeline.go:222-228 | The plan list is empty only if nothing is staged. |
| `DiskIds.LabelFormat` | internal/db/disks.go:48 | A label is the prefix, a colon, and the decimal number without leading zeros of its own, filled with zeros up to four characters. |
| `DiskIds.LabelExamples` | internal/db/disks.go:48 | Labels on both sides of four places, as literal strings: BD:0007, BD:0042, BD:0010, BD:1234, BD:56789. |
| `Tools.WriteTar` | internal/burn/pack.go:14-43 | Succeeds exactly when every file of the bucket is staged, and archives one member per file, in order, with its path and bytes, compressed if asked for. |
| `Tools.ExtractFile` | internal/burn/pack.go:68-106 | The loop finds the data of the first member of that name, after decompressing if the table of contents says so, or none. |
| `Tools.ArchivedFile` | internal/burn/pack.go:14-106 | Round trip: every file put into an archive comes out of it byte for byte. |
| `Tools.OwnNamesDisjoint` | internal/burn/pipeline.go:290-294 | Spool entries of distinct discs never coincide. |
| `Tools.NameExamples` | internal/burn/pipeline.go:290-293 | The spool entries of disc BD:0042 as literal strings. |
| `Tools.BuiltReads` | internal/retrieve/retrieve.go:156-200 | An image built for a disc, also with zeros after it, passes every check of a read and gives back the files packed into it. |
| `Tools.ReadingTable` | docs/handbook/varis-handbook.tex:585-591 | What a read of any image comes to, in terms of what can be extracted from it: another disc's table of contents, WrongDisc; none that can be read, or the right one with an archive or index missing or failing par2verify, Unreadable; otherwise the first member of that name, or NoSuchFile. |
| `Tools.BuiltSays` | internal/burn/pipeline.go:328-362 | A built image has the payload, its par2 index at the job's percentage, and a table of contents that parses to the disc's ID, media type, parity percentage, compression, group, role, slot and files. |
| `BurnKeepData.KeepsInv` | internal/burn/pipeline.go:207-570 | Every single step of the manager, of its programs and of the user keeps the invariant: job and index, catalog prefix, tables, staging, spool, images and recorded files. |
| `BurnRuns.RunKeepsInv` | internal/burn/pipeline.go:207-570 | The invariant holds in every world of every run, with any failures, retries and new jobs. |
| `BurnRuns.StepKeepsSafe` | internal/burn/pipeline.go:514-570 | One step loses no file: staged or archived bytes stay staged or archived, unless the user takes them out of staging or a disc that holds them is overwritten. |
| `BurnRuns.LeavesStaging` | internal/burn/pipeline.go:364-400 | Unless the user takes it out, a file leaves staging only after its disc was verified (or the dry-run copy made) and recorded with the hash of the medium, its row was inserted with its own hash, and the medium gives it back. |
| `BurnRuns.FilesAreConserved` | internal/burn/pipeline.go:514-570 | Over every run, with restarts, bytes once staged under a path are at every later moment still staged there or recorded on a disc that holds them; or the user took them out of staging since; or a disc that held them was overwritten since at its target path. |
| `BurnRuns.StepLosesIff` | internal/burn/pipeline.go:373-376 | One step loses a file that was safe if and only if the user takes it out of staging while no disc holds it, or a copy to a target path truncates the recorded disc there while the file is not staged and no other disc holds it. |
| `BurnSteps.NothingLost` | internal/burn/pipeline.go:563-567 | The same for the run of a Manager object. |
| `BurnFacts.CatalogIsPlanPrefix` | internal/burn/pipeline.go:250-267 | The discs this job has catalogued are exactly the plans before the current index, plus the current one while its commit is under way or failed midway. |
| `BurnFacts.RowsAreKeyed` | internal/burn/pipeline.go:552-562 | In every reachable world no file of a disc has two rows, and every row refers to a catalogued data disc. |
| `BurnFacts.StatusIndexInRange` | internal/web/jobs.go:35-48 | The clamped index of the status view is always in range and, unless the job is DONE, that of its current disc; the index equals the plan count if and only if the job is DONE; there is an error if and only if it is FAILED. |
| `BurnFacts.DoneRecordsEveryFileOnce` | internal/burn/pipeline.go:530-570 | When a job is DONE, exactly one row of its discs names each planned file, on the disc it was planned for. |
| `BurnFacts.DoneClearsStaging` | internal/burn/pipeline.go:259-267 | The step that makes a job DONE leaves none of its files in staging. |
| `BurnFacts.ParityOperands` | internal/burn/pipeline.go:429-463 | Whenever a parity disc is worked on, at any attempt, spool holds for each data disc of the group exactly the image this job wrote and recorded, and a payload is right if and only if it is the XOR of exactly those. |
| `BurnFacts.SpoolHoldsOneGroup` | internal/burn/pipeline.go:408-427 | Unless a removal failed, those data images in spool that the current job has made all belong to the group being burned and are at most a group size many. Images of abandoned jobs are not counted. |
| `BurnMeta.StuckOnlyByFailedCommit` | internal/burn/pipeline.go:514-570 | A job gets stuck if and only if a commit fails after its disc was recorded. |
| `BurnMeta.CollisionsHitParityOnly` | internal/burn/pipeline.go:151-199 | Only a parity disc's ID can be met again by a later job, never a data disc's. |
| `BurnMeta.BlockedJobNeverDone` | internal/burn/pipeline.go:272-281 | A job whose disc collides with the catalog, or is stuck, never becomes DONE as long as it is the job, however often it is retried. |
| `BurnMeta.ParityImageTooBig` | docs/handbook/varis-handbook.tex:691 | Every image of a parity disc is larger than the medium it is meant for. |
| `BurnMeta.OpticalParityNeverRecorded` | docs/handbook/varis-handbook.tex:691 | In no run is a parity disc of an optical job ever recorded, so an optical job with cross-disc parity is never DONE. |
| `BurnMeta.MetadataIsConserved` | internal/burn/pipeline.go:539-562 | Over runs in which the path is not tagged again, its metadata is always in exactly one place: staged; in the commit's hands; in a row of that path inserted since, on the disc that was being committed when it was taken; or lost since by a commit that failed or was interrupted by a restart. |
| `BurnMeta.StepMovesMeta` | internal/db/staged_metadata.go:55-68 | One step moves metadata only along this way: staged, in hand, then either into the very next row or into the very next loss, and there it stays. |
| `BurnMeta.LostMetadataBound` | internal/burn/pipeline.go:539-548 | Over every run at most one path's metadata is lost per job. |
| `BurnIds.DoneTakesTheBlock` | internal/burn/pipeline.go:148-199 | A finished job has taken exactly the numbers base+1 .. base+plans. |
| `BurnIds.DoneNumbers` | internal/db/disks.go:33-49 | A job begun when the numbers of its prefix are 1..base leaves them 1..base+plans when it is DONE, at any later moment of any run; nothing is asked of other jobs and other prefixes. |
| `BurnIds.AbandonedJobLeavesNoGapIff` | internal/burn/pipeline.go:151-199 | A job begun when the numbers of its prefix are 1..base and given up at any later moment of any run: every ID NextDiskID would propose is free if and only if the job has recorded no parity disc, or all its discs but at most one. |
| `BurnIds.OrderlyJobsNeverCollide` | internal/db/disks.go:33-49 | In runs in which jobs are given up only where that leaves no gap, no disc of any job is ever found catalogued by another, and whenever the job could be given up so, all IDs NextDiskID would propose are free. |
| `BurnIds.WedgedForEver` | internal/db/disks.go:33-49 | Once the next ID of a prefix is taken, no disc of that prefix is ever catalogued again, whatever is started, retried or abandoned. |
| `BurnCommit.PayloadStays` | internal/burn/pipeline.go:465-478 | What is to be packed does not depend on what earlier attempts left in the disc's own spool entries. |
| `BurnCommit.RetryEqualsFresh` | internal/burn/pipeline.go:465-478 | Two attempts at a disc prepare the same of the five entries that an attempt clears, whatever their predecessors left. |
| `BurnCommit.FilesStillStaged` | internal/burn/pipeline.go:311-314 | A data disc that is not recorded yet has all its files staged, at every attempt. |
| `BurnCommit.ImagesStillThere` | internal/burn/pipeline.go:429-433 | The images a parity disc is made from are there at every attempt. |
| `BurnCommit.CommittedNext` | internal/burn/pipeline.go:535-568 | One turn of the commit loop: one row with hash and metadata, one file and its metadata gone. |
| `BurnManager.Manager.Current` | internal/burn/pipeline.go:112-124 | A snapshot of the job, in which whoever shows it can rely on: the clamped disc index names the current disc, or the last one once the job is DONE; the job is past its last disc if and only if it is DONE; it carries an error if and only if it is FAILED. |
| `BurnManager.Manager.SetState` | internal/burn/pipeline.go:283-287 | Only the state changes, as one step of the run. |
| `BurnManager.Manager.RemoveStaleArtifacts` | internal/burn/pipeline.go:465-478 | On success none of the five entries is left; no other disc's entry changes either way, and par2 volumes stay. |
| `BurnManager.Manager.PackTar` | internal/burn/pipeline.go:311-314 | The archive of the staged files; without a fault it fails only for a disc recorded before. |
| `BurnManager.Manager.ReadGroupImages` | internal/burn/pipeline.go:445-457 | The images of the group's data discs in plan order, or none if one cannot be read. |
| `BurnManager.Manager.BuildParityPayload` | internal/burn/pipeline.go:445-463 | The XOR, at the capacity, of the group's images in spool; without a fault it never fails. |
| `BurnManager.Manager.CreateParity` | internal/burn/parity.go:10-15 | The par2 index of the payload at the job's percentage and, if par2create makes any, its volumes, and no other change; refused when an index or volumes are there already, and without a fault only then. |
| `BurnManager.Manager.BuildToc` | internal/burn/pipeline.go:328-340 | The table of contents: the job's media type, parity percentage and compression, the disc's ID, group, role and slot, and one entry per planned file, in order, with its path and size. |
| `BurnManager.Manager.MovePathsInto` | internal/burn/pipeline.go:500-512 | Those of the three files that exist are in the source directory and gone from spool. |
| `BurnManager.Manager.PrepareSource` | internal/burn/pipeline.go:289-355 | On success the disc's only spool entry, volumes aside, is a source directory with exactly the payload of a fresh attempt, its par2 index and table of contents; other discs' entries are untouched; without a fault it fails only for a disc recorded before or one with volumes of an earlier attempt. |
| `BurnManager.Manager.BuildIso` | internal/burn/pipeline.go:356-362 | The image is built from that directory and the hash is its hash. |
| `BurnManager.Manager.CopyImage` | internal/burn/pipeline.go:480-498 | Exactly the current disc's medium, or the file at the target path, is written, and it holds the image when the copy reports success; a failure may also leave everything as it was. |
| `BurnManager.Manager.BurnIso` | internal/burn/write.go:8-13 | Anything that fits may be on the medium afterwards; anything but the image counts as a fault if there was room for it. |
| `BurnManager.Manager.VerifyBurn` | internal/burn/verify.go:28-40 | Success means that what was written reads back with the image's hash. |
| `BurnManager.Manager.BurnAndVerify` | internal/burn/pipeline.go:364-396 | Success means that the image was written, fits, and the job is in the state in which the disc may be committed; it fails only by a fault or for want of room. |
| `BurnManager.Manager.InsertDisk` | internal/db/disks.go:51-57 | The primary key refuses an ID that is there; otherwise the row is added, or a fault stops it or comes after it. |
| `BurnManager.Manager.ConsumeStagedMetadata` | internal/db/staged_metadata.go:55-68 | Reads and deletes in one step; no metadata is not an error; after a reported error the metadata is untouched or gone. |
| `BurnManager.Manager.UpsertStagedMetadata` | internal/db/staged_metadata.go:19-33 | Replaces what the path had. |
| `BurnManager.Manager.InsertFile` | internal/db/files.go:23-36 | Appends exactly that row; after a reported error it is there or not. |
| `BurnManager.Manager.CommitFile` | internal/burn/pipeline.go:535-568 | Hash, metadata, row, removal; a failure leaves exactly the steps done before it, and perhaps the one that reported it. |
| `BurnManager.Manager.CommitDisc` | internal/burn/pipeline.go:514-570 | Success adds the disc's row, with the job's media type, parity percentage and dry-run flag, the plan's role, its group and slot if it has a group, and the hash of what is on the medium; and one row per file, in plan order, with size, hash and metadata, emptying staging of them. Without a fault it fails only if the ID is taken; after a failure the rows are a prefix of those wanted. |
| `BurnManager.Manager.CleanupGroupDataISOs` | internal/burn/pipeline.go:408-427 | All data images of the group are gone, or a removal failed; nothing else leaves spool. |
| `BurnManager.Manager.RunDisc` | internal/burn/pipeline.go:289-406 | Success is a burned, verified and recorded disc; without a fault it fails only if the ID is taken, the image too large, or volumes of an earlier attempt are left; a failure leaves other discs' spool entries alone. |
| `BurnManager.Manager.ContinueNextDisc` | internal/burn/pipeline.go:234-268 | Refused unless a disc is awaited. Otherwise it finishes the disc and moves on, or marks the job FAILED; without a fault it finishes every disc whose ID is free, whose image fits and that has no par2 volumes of an earlier attempt. A disc whose ID another one has is written before that is noticed. At most the recorded disc at the target path is overwritten. |
| `BurnManager.Manager.Retry` | internal/burn/pipeline.go:270-281 | Succeeds exactly for a FAILED job, and changes only its state and error. |
| `BurnManager.Manager.Restart` | docs/handbook/varis-handbook.tex:633 | A restart forgets the job and nothing else, but the metadata a commit holds; all theorems about runs hold across it. |
| `BurnManager.Manager.Start` | internal/burn/pipeline.go:204-232 | Refused while a job is neither DONE nor FAILED; otherwise, without a fault, the new job is planned over everything staged, in groups of the requested size, unless nothing is staged; a failure leaves at most registered groups. |
| `BurnOperator.FinishJob` | internal/burn/pipeline.go:234-281 | Retrying and continuing, each disc onto a new medium, overwrites no disc. If no call fails, a dry-run or filesystem job gets DONE if and only if its current disc is not stuck, no disc still to come bears a catalogued ID, and no earlier attempt left par2 volumes. An optical job gets DONE if besides every image fits, and only if for each disc some image does. |
| `BurnOperator.DoneWasUnblocked` | internal/burn/pipeline.go:259-281 | With any failures: a job that becomes DONE had no blocked disc at any earlier moment, and is not an optical job with parity discs. |
| `BurnOperator.ParityNeverFits` | docs/handbook/varis-handbook.tex:691 | No image that can be built for a parity disc fits on an optical medium. |
| `BurnHistories.AbandonJob` | internal/burn/pipeline.go:148-232 | A history of calls on the class: a dry run with two groups is abandoned after the first, and the next job is planned at the number of that group's parity disc. Its prefix is wedged while the group is still recoverable. |
| `BurnHistories.DestroyGroup` | internal/burn/pipeline.go:364-372 | It goes on: burning that disc fails, but overwrites the parity disc's file first, and the finished group is not recoverable any more. |
| `BurnHistories.OverwriteFirst` | internal/burn/pipeline.go:373-376 | A history of calls on the class in which no call fails and the job gets DONE: both discs of a filesystem job are copied to the same target path without changing the medium, and the file of the first is lost for good. |
| `BurnHistories.RetryMeetsVolumes` | docs/handbook/varis-handbook.tex:690 | If par2create has written volumes when an attempt fails, retrying never gets the job DONE, even if no call fails any more. |
| `Reconstruct.SessionHoldsLast` | internal/burn/reconstruct.go:81-97 | After any sequence of reads each member counts with the image it was last supplied with, and only members count. |
| `Reconstruct.OnlyLastImagesMatter` | internal/burn/reconstruct.go:81-114 | Sessions that end with the same image for each member rebuild the same disc. |
| `Reconstruct.SessionRemaining` | internal/burn/reconstruct.go:63-73 | Over any session the remaining discs are exactly the members never supplied. |
| `Reconstruct.AllRemainAtFirst` | internal/burn/reconstruct.go:63-73 | Before any read all other members remain, in group order. |
| `Reconstruct.SessionProgress` | internal/burn/reconstruct.go:63-97 | One more read takes exactly a new member off the list, keeping group order, and nothing otherwise. |
| `Reconstruct.NothingRemains` | internal/burn/reconstruct.go:75-79 | Nothing remains if and only if every member has an image. |
| `Reconstruct.SessionRebuilds` | internal/burn/reconstruct.go:99-114 | If every other member was last read as its operand, data discs perhaps cut to the capacity, the lost data disc is rebuilt, padded to the capacity. |
| `Reconstruct.NewReconstructor` | internal/burn/reconstruct.go:43-61 | An error exactly if the disc is not in the group; otherwise the other members in group order and no images. |
| `Reconstruct.Reconstructor.Remaining` | internal/burn/reconstruct.go:63-73 | The members without an image, in group order. |
| `Reconstruct.Reconstructor.NeedsMore` | internal/burn/reconstruct.go:75-79 | True exactly while the disc cannot be rebuilt. |
| `Reconstruct.Reconstructor.SupplyDiscImage` | internal/burn/reconstruct.go:81-98 | Accepts exactly the members; a second image replaces the first; a refusal changes nothing. |
| `Reconstruct.Reconstructor.Reconstruct` | internal/burn/reconstruct.go:99-114 | The XOR of the supplied images, or an error while one is missing. |
| `Retrieve.SelectMembers` | internal/db/disks.go:71-91 | Exactly the discs of the group, without repeats, by ascending slot, those without a slot last. |
| `Retrieve.Manager.Start` | internal/retrieve/retrieve.go:91-102 | Refused exactly while a retrieval is neither DONE nor FAILED; otherwise, without a fault, it succeeds exactly for a catalogued file, and gives a job awaiting that file's disc. |
| `Retrieve.Manager.ReadDisk` | internal/retrieve/retrieve.go:104-138 | Reads only an awaited disc: a dry-run disc from its dry-run file, whatever was inserted, or not at all if there is none, any other from what was inserted. DONE only if its archive passes par2verify, with the first member of that name retrieved; without a fault the table of contents and the par2 check decide, as does a disc missing from the catalog; the error is set unless DONE; a read that asks for reconstruction writes nothing. |
| `Retrieve.Manager.CheckDisc` | internal/retrieve/retrieve.go:156-188 | Another disc's table of contents is a failure; anything unreadable or failing its par2 check asks for reconstruction; only an intact archive of the right disc goes on to extraction. |
| `Retrieve.Manager.ReadFrom` | internal/retrieve/retrieve.go:140-200 | DONE only if the tar and index extracted from the source pass par2verify, its table of contents names the disc, and the retrieved folder has the data of the first member of that name, nothing else in it changed. Without a fault, NEEDS_RECONSTRUCTION exactly when no table of contents can be read or the right disc fails its par2 check, with the folder unchanged. |
| `Retrieve.Manager.StartReconstruction` | internal/retrieve/retrieve.go:217-265 | On success a new reconstructor for the job's disc, its group and its media type's capacity; a failure reverts and keeps the stored one. |
| `Retrieve.Manager.Remaining` | internal/retrieve/retrieve.go:279-287 | The members still needed, in group order. |
| `Retrieve.Manager.ReadOperand` | internal/retrieve/retrieve.go:325-345 | A data disc gives its raw bytes up to the capacity, a parity disc the payload inside its image; a dry-run disc is read from its dry-run file whatever was inserted, any other from what was inserted. |
| `Retrieve.Manager.ReadRawImage` | internal/burn/reconstruct.go:116-136 | The first bytes of the device, up to the size; its end is not an error. |
| `Retrieve.Manager.FoldReconstructionImage` | internal/retrieve/retrieve.go:376-396 | A member's image is added and, when none is missing, the disc rebuilt. |
| `Retrieve.Manager.ReadReconstructionDisc` | internal/retrieve/retrieve.go:289-374 | A readable member is added or replaced, anything else changes nothing and keeps the job reconstructing, with the error set; the last one decides the outcome like a read of the rebuilt image. The retrieved folder changes only by that read. |
| `Retrieve.BaseIsLastElement` | internal/retrieve/retrieve.go:191 | The retrieved file's name is the path's part after the last slash. |
| `Records.RecordedAsPlanned` | internal/burn/pipeline.go:514-570 | In every run, each disc the current job has recorded, grouped or not, has a row with the job's media type, parity percentage and dry-run flag, the plan's role, and its group and slot exactly when it has a group; the hash is that of its medium as soon as it is written, and once it is finished its files are recorded in plan order with their sizes. |
| `Records.RowsAreFinal` | internal/db/disks.go:51-57 | No step changes or removes a row of the disks table. |
| `Records.FinishedIsDescribed` | internal/burn/pipeline.go:328-355 | In every run, of each finished disc of any job: what was written for it has a table of contents that parses, with the ID, media type, parity percentage, role, group and slot of its row and exactly the files recorded for it, with their sizes, in plan order, none for a parity disc; the par2 index is that of the payload at the recorded percentage; the row has the hash of the whole image. Only a dry run that hits its dry-run file ends that. |
| `Records.BurnedRow` | internal/burn/pipeline.go:521-530 | A successful turn adds exactly one row, field by field as planned, for a disc that had none, and changes no other disc's row or medium. |
| `Records.BurnedFiles` | internal/burn/pipeline.go:535-568 | It appends one row per planned file, in order, with size, hash and metadata, and takes exactly those files and their metadata away. |
| `Records.BurnedMedium` | internal/burn/pipeline.go:307-362 | The medium then has the table of contents as planned, the archive of the staged files in plan order, compressed if the job says so, or a parity payload of the capacity's length, and its par2 index. |
| `Records.BurnedTarget` | internal/burn/pipeline.go:373-376 | After a filesystem job's turn, and only then, the target path holds the new disc; exactly the recorded disc that it held before is overwritten. |
| `Records.WriteChanges` | internal/burn/pipeline.go:364-392 | Any write, also one of a failing attempt, changes the current disc's own medium if its ID is free or its own; of a disc whose ID another one has, that one's dry-run file if both are dry runs, and no recorded disc's otherwise; and overwrites at most the other disc at the target path. |
| `Recovery.LostDiscIsRebuilt` | internal/retrieve/retrieve.go:296-309 | For any finished group: one data disc lost, the others read in any order with repeats, last of all well: the rebuilt image is the lost one padded to the capacity and reads the same. |
| `Recovery.RebuiltIsWholeIff` | internal/burn/pipeline.go:435-444 | Whatever the size of the lost image, what is rebuilt begins with all of it if and only if it is no longer than the capacity; of a longer one exactly the capacity's worth comes back. |
| `Recovery.FinishedIsKept` | internal/burn/pipeline.go:445-570 | What the burn side leaves for each finished group: rows of exactly its discs by ascending slot, true images, a parity payload that is the XOR of the data images at the capacity. |
| `Recovery.DoneFinishesGroups` | internal/burn/pipeline.go:259-267 | When a cross-parity job is DONE, each of its data discs is in such a group. |
| `Recovery.SealedIsFinal` | internal/burn/pipeline.go:364-396 | A finished disc and its row never change again, unless it is a dry run's and another dry run writes a disc that bears its ID. |
| `Recovery.StepKeepsGroupIff` | internal/burn/pipeline.go:207-570 | One step ends a finished group's recoverability if and only if it is a write that truncates a second disc of the group at its target path, or a dry run's that puts something without the group's XOR under the ID of that group's parity disc, itself a dry run's. |
| `Recovery.FinishedStaysKept` | internal/burn/pipeline.go:207-570 | Over every run, whatever happens to other groups and prefixes, a finished group stays recoverable as long as no dry run is at a disc with its parity disc's ID, if that one is a dry run's too. |
| `Recovery.LostDiscIsRecovered` | internal/retrieve/retrieve.go:289-374 | End to end: at any later moment of the run up to which no dry run was at a disc with the group's parity disc's ID, any one data disc of a finished group is rebuilt from the others, and every file recorded on it reads with its recorded size and hash. |
| `Recovery.OrderlyJobsAreRecoverable` | internal/retrieve/retrieve.go:289-374 | The same without any condition on collisions, for runs in which jobs are given up only where that leaves no gap. |
| `RecoveryOperator.RebuildFile` | internal/retrieve/retrieve.go:91-396 | The operator's checklist on the retrieval manager: with the recorded catalog, the media type's capacity as burned, and the group's other discs at hand, a file of a lost disc ends DONE in the retrieved folder with its recorded hash and size if no call fails; if some do, DONE still means that. |
| `RecoveryOperator.RecoverFile` | internal/retrieve/retrieve.go:91-396 | Both manager objects together: any history of calls on the burn manager that finished the group, then the checklist on the retrieval manager. |
| `RecoveryOperator.RebuiltIsRight` | internal/retrieve/retrieve.go:346-374 | Once every other member was read as written, in any order and number, the rebuilt image gives back each recorded file with its hash and size. |
| `BurnClaims.InterleavingIsClaimed` | internal/burn/pipeline.go:234-287 | In every interleaving of any number of threads: a thread is in runDisc exactly while the state is PACKING to VERIFYING, it is alone, its captured job is the manager's, and what it last set is the state. |
| `BurnClaims.WorkerIffBusy` | internal/burn/pipeline.go:237-268 | Some thread works if and only if the job is in a busy state. |
| `BurnClaims.AtMostOneWorker` | internal/burn/pipeline.go:244-247 | Two threads never work at once. |
| `BurnClaims.InterleavingIsLegal` | internal/burn/pipeline.go:237-287 | Every change of a job's state by any thread follows the legal order. |
| `BurnClaims.OthersDoNotInterfere` | internal/burn/pipeline.go:247-250 | While a thread works, no move of another changes anything, so reading the plan without the lock is safe. |
| `RetrieveClaims.InterleavingIsClaimed` | internal/retrieve/retrieve.go:104-138 | In every interleaving: a thread holds the job exactly in the three claimed states, alone, on the manager's job, and its position fits the state. |
| `RetrieveClaims.ReconstructorIsCurrent` | internal/retrieve/retrieve.go:256-265 | In every interleaving, RECONSTRUCTING and READING_RECONSTRUCTION_DISC imply that the stored reconstructor and capacity, and those a reading thread captured, are for the current job's disc, and the capacity is that of its media type. |
| `RetrieveClaims.WorkerIffHeld` | internal/retrieve/retrieve.go:110-138 | Exactly one thread works in the claimed states and none in the others. |
| `RetrieveClaims.FoldsIntoOwnReconstructor` | internal/retrieve/retrieve.go:376-396 | A fold goes into the stored reconstructor, which is that of the job's disc, and into no other. |
| `RetrieveClaims.OnlyFoldsChangeImages` | internal/retrieve/retrieve.go:376-396 | Nothing but a fold changes the images of a reconstructor. |
| `RetrieveClaims.OthersDoNotInterfere` | internal/retrieve/retrieve.go:310-323 | While a thread works, no move of another changes anything. |
| `RetrieveClaims.ReconstructorSurvivesAborts` | internal/retrieve/retrieve.go:76-89 | In every interleaving with any number of aborts, none of them while a reconstruction is being started, the stored reconstructor and capacity are those of the current job's disc while it is reconstructed, and at most one thread works on the current job, even with threads left on aborted ones. |
| `RetrieveClaims.AbortInFlightMixesDiscs` | internal/retrieve/retrieve.go:83-89 | A concrete interleaving in which an aborted reconstruction ends up under another disc's job. |

## Left out

- Mutual exclusion between burning and retrieving: the handlers check and act under two different locks, so it does not hold in general.
- Retrieval's Abort as a call of the class: the claims module shows when it is harmless and what it breaks.
- Dry-run deletion (DeleteDryRunDisc): it removes catalogued files on purpose.
- An optical disc burned before in the drive: wodim refuses it, which is one more call that fails.
- That the critical sections in the two claims modules are those of the Manager classes: both follow the same source lines, but no proof ties one to the other.
- Reading a disc whose drive returns more than was written: VerifyBurn compares the whole medium with the image.
- par2 volume files one by one: a single spool entry stands for all of a disc's.
- Real formats (tar blocks, ISO 9660, gzip, JSON, SHA-256, par2's repair): only the laws above are used.
- Free-space numbers: a check is one more call that may fail.
- SQL beyond the statements of the managers, LIKE wildcards in prefixes, searching, media type editing, connections.
- Int64 overflow of bucket totals in Pack: sizes are unbounded there; the one overflow the code can meet with real capacities, in TargetDataSize, is modelled.
- Two retrieved files with the same base name: the later one replaces the earlier, as in the code, and nothing more is said.
- HTTP handlers, templates, covers, QR codes, WebDAV, configuration, staging selection helpers.
- Error texts (an error is a flag), and a crash inside one step: a restart comes between two steps.
- BurnManager.Manager.Start: `uuids` stands for the group IDs the database will hand out, enough for any plan, and free space for a call that may fail.
- Retrieve.Manager.ReadDisk: the catalog does not change during a retrieval.
