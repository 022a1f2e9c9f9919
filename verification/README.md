# Home lab PXE: verified model

A Dafny model of the parts of the home lab PXE server whose correctness is easiest to lose: the extraction and install
protocol, the cloud-init editor, the autoinstall completion pipeline, the boot-menu forest, UEFI boot-order planning and
machine identity. `dafny verify dfyconfig.toml` checks all of it.

## How the model is laid out

- **Install protocol.** `LabState` holds the rows (ISOs, templates, machines, install attempts), the trees on disk,
  the worker's one job, and every operation as a function on them. Steps of the worker (begin, unpack, finish) are
  separate operations, so schedules, relinks, deploys, callbacks and collections interleave with them freely.
  `LabMedia`, `LabLife` and `LabPins` prove invariants of every reachable state, and `LabExamples` runs the lab into
  its two exceptions. `Lab.Database` is the same state as mutable fields; each method runs the source's loops and is
  proved equal to its step.
- **Editor.** `Values` and `Tokens` model YAML trees, the editor's own equality and placeholder shielding.
  `EditorForm` is the schema-driven view and emit over an arbitrary schema; `EditorScalars` and `EditorLens` prove the
  view/emit law by induction over schema and value together, `EditorRefusals` when a save raises instead,
  `EditorDocument` carries both through a whole seed, and `EditorRender` says which text comes out. `EditorInstaller`,
  `EditorSplice`, `EditorPackages` and `StripAutoinstall` cover the installer mapping, the line splice, package rows
  and first-boot commands. `EditorLoops` runs the editor's collecting loops and its in-place merge, `EditorFindings`
  holds concrete values the editor changes or refuses.
- **Seed completion.** `SeedRender` and `SeedCommands` define the passes, `SeedSections`, `SeedSettles` and `WgetText`
  what each pass settles, `SeedIdentity` what the sweep does to the identity, and `SeedPipeline` the whole pipeline.
  `SeedUrls` spells out the generated commands, `SeedCompletion` puts them and the shipped defaults into the theorems,
  and `SeedPasses.Seed` runs the passes in place with their `changed` flags.
- **Boot menu.** `BootMenuForest` is the theory of a depth-bounded parent-pointer forest, `BootMenu` the operations,
  `BootMenuTable.Table` the in-place tables with the walks as loops.
- **UEFI order and identity.** `UefiOrder`, `MachineIdentity`. `Text` holds the string helpers.

## What fails, and exactly when

- Saving a value as the form shows it keeps its meaning if and only if the value is clean and not refused
  (`EditorRefusals.ExactLens`). A padded lone placeholder, a blank scalar row, a repeated or padded choice, a padded
  row name, a null command, a list of one list placeholder and octal-looking text are changed without a notice;
  `EditorFindings` has concrete inputs for each.
- Credential checks aside, saving a clean value raises if and only if it holds a shown password row without a name, or
  without a password although its type is not RANDOM. Such a row is shown without a notice, and no unedited page that
  has it can be saved (`EditorFindings.PasswordlessUserRefused`).
- Saving the unedited page of a clean seed keeps the seed if and only if its `user-data` is absent or a mapping
  (`EditorDocument.NoOp`). Text and null are replaced by an empty mapping, although the conversion to a first-boot
  seed accepts text there (`EditorDocument.UserDataTextIsLost`).
- A changed installer key leaves old content below its new block if and only if some of that content is not indented
  past the key (`EditorSplice.StaleExactly`), as with a list at the key's own column (`EditorSplice.FlushListStays`).
  The reparse is there to reject such a text; the save then falls back to the full dump, which loses the seed's
  comments (`EditorRender.InstallerRendered`).
- Completing a completed seed changes nothing if and only if dropping inline confirm commands lost neither the Wi-Fi
  nor the imaging command and the identity does not refill (`SeedPipeline.CompleteTwice`);
  `SeedCompletion.InlineCompletedTwice` is a seed whose inline command is lost.
- An identity refills when one of its fields is a mapping of nothing but empty ssh-key lists: it is text while the
  identity is read and empty after the sweep, so the second completion takes it from user-data
  (`SeedIdentity.RefillsExactly`, with a seed in `SeedCompletion.SweptHostRefilled`).
- Enabling a machine that is in the middle of an install leaves its attempt open; nothing else does
  (`LabLife.SettledStep`, with a run in `LabExamples.EnabledAttemptStranded`).
- An attempt pins the tree its payload boots from if and only if the template's ISO is ready
  (`LabPins.PinsWhatItBoots`). An attempt made from an idle template with an older generation loses that tree at the
  next collection unless another machine pins it (`LabPins.IdlePinIsLost`, with a run in
  `LabExamples.BootedTreeCollected`).

## Model

| member | source | states |
|---|---|---|
| LabMedia.AlwaysMirrored | src/extract_worker.py:59-319 | after every sequence of operations: every template mirrors all columns of an existing ISO, its source is one the catalog offers, a ready ISO's generation names its current revision and that tree is on disk, and the worker's job is consistent with its ISO |
| LabMedia.StepMedia | src/inventory/isos.py:77-99 | every single operation keeps that media invariant |
| LabMedia.JobDecides | src/extract_worker.py:231-319 | a job that ends while its revision is current leaves its ISO idle, failed with the message or ready with its own generation, and every linked template equal to it |
| LabMedia.OvertakenChangesNothing | src/extract_worker.py:277-287 | a job whose revision was overtaken changes no row and no other tree, and removes the tree it published |
| LabMedia.ClaimedOnce | src/extract_worker.py:93-121 | without a requeue or a recreated ISO, no run claims the same ISO and revision twice |
| LabMedia.SpentForever | src/extract_worker.py:59-121 | a claimed or overtaken revision stays unclaimable through every run without a requeue |
| LabMedia.UpdateImageOk | src/inventory/service.py:758-836 | relinking a template or choosing its source keeps mirrors and offered sources |
| LabMedia.CreateImageOk | src/inventory/service.py:705-755 | a new template starts as a mirror of its ISO with an offered source |
| LabMedia.DeleteIsoOk | src/inventory/isos.py:158-167 | deleting an unused ISO leaves no template without its ISO |
| LabMedia.CollectOk | src/extract_worker.py:174-217 | collection never removes the current tree of a ready ISO |
| LabMedia.FinishOk | src/extract_worker.py:277-319 | publishing keeps mirrors, offered sources and ready-means-current |
| LabState.PickSource | src/install_sources.py:264-272 | a non-empty catalog always yields an offered source; the current id, once sanitised, is kept if offered, and otherwise a default source wins when there is one |
| LabLife.AlwaysInstalled | src/inventory/service.py:493-681 | after every sequence of operations: at most one open attempt a machine, an installing machine has exactly one with its current instance id and an existing target, and the imaging clock is set exactly while imaging |
| LabLife.AlwaysUnshared | src/inventory/service.py:268-301 | after every sequence of operations no two machines and no two attempts share an instance id, a machine's id is only on its own attempts, and every id drawn later is a new one |
| LabLife.StepLife | src/inventory/service.py:493-702 | every single operation keeps the lifecycle invariant |
| LabLife.DecidesByAttempt | src/boot/policy.py:38-55 | an installing machine boots its attempt's installer by the frozen family, never the live template; any other machine gets the menu or the local disk |
| LabLife.NeverServedAgain | src/inventory/service.py:172-184 | an issued instance id that is not served guest-init now is not served in any later state |
| LabLife.DeploySupersedes | src/inventory/service.py:489-507 | a deploy ends service for the previous instance id and serves the new one |
| LabLife.ExpireExact | src/inventory/service.py:541-560 | expiry times out exactly the imaging machines whose clock is at or past the cutoff, closes exactly their attempts and touches nothing else |
| LabLife.HeartbeatSaves | src/inventory/service.py:163-169 | a heartbeat newer than the cutoff keeps an imaging machine from expiring |
| LabLife.SuccessInTime | src/routes/events.py:38-57 | a success callback is accepted if and only if the machine is installing and its imaging clock has not run out; otherwise nothing changes |
| LabLife.Transitions | src/inventory/service.py:493-681 | a machine's state changes only along the listed edges, and its instance id changes exactly when an attempt is created for it |
| LabLife.SettledStep | src/inventory/service.py:635-642 | open attempts belong to installing machines after every step except, exactly, enabling a machine that is installing |
| LabExamples.EnabledAttemptStranded | src/inventory/service.py:635-642 | a run after which every open attempt belongs to an installing machine, until enabling that machine strands one |
| LabPins.PinnedMediaSurvives | src/extract_worker.py:174-217 | an attempt made from a ready template pins a tree that is on disk, and the very same tree is there in every later state in which the attempt is open, if its template is not relinked |
| LabPins.PinnedForever | src/extract_worker.py:174-217 | pinning is kept by every run of schedules, failures, publishes, collections and machine events |
| LabPins.PinsWhatItBoots | src/inventory/service.py:268-301 | a payload pins the revision of the tree it boots if and only if the ISO is ready |
| LabPins.IdlePinIsLost | src/inventory/service.py:268-301 | the tree of an attempt made from an idle ISO survives the next collection if and only if another machine pins it |
| LabExamples.BootedTreeCollected | src/extract_worker.py:174-217 | a run in which two machines install from an idle ISO and the first one's tree is collected when the second is done |
| Lab.Database.SyncTemplates | src/inventory/isos.py:96-99 | the loop mirrors exactly the templates linked to the ISO |
| Lab.Database.ScheduleExtract | src/extract_worker.py:59-69 | queues the next revision when the ISO file is present, and changes nothing otherwise |
| Lab.Database.RequeueStaleExtracting | src/extract_worker.py:72-79 | every extracting ISO is queued again with its templates and the lost job is forgotten |
| Lab.Database.ClaimNextJob | src/extract_worker.py:93-121 | claims the queued ISO with the least id, or changes nothing exactly when none is queued |
| Lab.Database.BeginJob | src/extract_worker.py:234-245 | drops an overtaken claim, returns the ISO to idle when its file is gone, and otherwise starts extracting |
| Lab.Database.RecordFailure | src/extract_worker.py:220-228 | a failure is recorded only on the revision it belongs to |
| Lab.Database.UnpackJob | src/extract_worker.py:246-279 | a published tree is added under its own revision; a failed one changes only the rows |
| Lab.Database.OpenRevisions | src/extract_worker.py:174-187 | finds exactly the revisions pinned by open attempts |
| Lab.Database.GcExtractGenerations | src/extract_worker.py:174-217 | removes exactly the trees of one ISO that are neither current nor pinned |
| Lab.Database.FinishJob | src/extract_worker.py:277-319 | re-reads the row, then publishes or discards |
| Lab.Database.CloseOpenAttempts | src/inventory/service.py:203-214 | the loop closes exactly the machine's open attempts |
| Lab.Database.GetOpenAttempt | src/inventory/service.py:191-200 | returns an open attempt of the machine's current instance, or none exactly when there is none |
| Lab.Database.DecideScript | src/boot/policy.py:38-55 | the boot decision is the one determined by the machine's open attempt |
| Lab.Database.CreateInstallAttempt | src/inventory/service.py:268-301 | closes the open attempts, takes a new instance id and freezes the template's payload |
| Lab.Database.DeployMachine | src/inventory/service.py:493-507 | succeeds exactly for a deployable template |
| Lab.Database.StageMachine | src/inventory/service.py:645-674 | succeeds exactly when the chosen or assigned template exists and is deployable |
| Lab.Database.AbortDeploy | src/inventory/service.py:584-595 | refused exactly outside the install states |
| Lab.Database.DisableMachine | src/inventory/service.py:635-642 | disabling closes open attempts, enabling does not |
| Lab.Database.ExpireStaleImaging | src/inventory/service.py:541-560 | the loop over machines equals expiry of all stale ones at once |
| Lab.Database.CompleteDeploy | src/inventory/service.py:598-632 | closes the attempts and collects the old trees of the ISOs their images are linked to |
| Lab.Database.SuccessEvent | src/routes/events.py:38-57 | expires first, then completes the deploy exactly when the machine is still installing |
| Lab.Database.ImagingEvent | src/routes/events.py:38-50 | accepted exactly in an install state, and starts the imaging clock |
| Lab.Database.InstallLogEvent | src/routes/events.py:60-74 | accepted exactly in an install state, and fails the machine and closes its attempts |
| Lab.Database.GetMachineForGuestInit | src/inventory/service.py:172-184 | serves exactly the current instance of a machine whose state allows it, and beats its clock |
| Lab.Database.RemoveMachine | src/inventory/service.py:684-702 | removes the machine with its attempts and nothing else |
| Lab.Database.RemoveIso | src/inventory/isos.py:158-167 | refused exactly while extraction is in progress or a template is linked; otherwise exactly this ISO and its trees go and the media invariant still holds |
| Lab.Database.RemoveImage | src/inventory/service.py:839-870 | refused exactly while an installing machine uses it; otherwise unassigns it everywhere |
| MachineIdentity.NormalMac | src/inventory/mac.py:14-19 | normalising is idempotent, and two texts normalise alike if and only if they have the same hex digits up to case |
| MachineIdentity.AlwaysUnique | src/inventory/service.py:331-386 | over every run of reports MACs and UUIDs stay unique, no record is lost, at most one is added a report, a learnt UUID never changes, and a record only moves to an address reported with its own UUID after more than an hour of silence |
| MachineIdentity.OneReport | src/inventory/service.py:331-386 | the same for a single report |
| MachineIdentity.TouchMoves | src/inventory/service.py:315-386 | a record moves to a new MAC if and only if nobody holds the MAC and the UUID's holder was silent for over an hour; a record is added if and only if neither answers |
| MachineIdentity.TouchFrame | src/inventory/service.py:331-386 | only the answering record changes |
| MachineIdentity.Registry.TouchMachine | src/inventory/service.py:331-386 | the branches in place give the specified records and holder; a bad MAC changes nothing |
| MachineIdentity.Registry.FindByMac | src/inventory/service.py:187-188 | finds the holder of an address in any spelling, or none exactly when there is none; a text that is no address is an error |
| BootMenuForest.MoveKeepsForest | src/inventory/boot_menu.py:299-313 | moving a folder leaves a forest of depth at most 7 if and only if the cycle check and the depth check both pass |
| BootMenuForest.ExtraBounds | src/inventory/boot_menu.py:177-181 | no folder in a subtree is deeper than the subtree's extra depth says |
| BootMenuForest.ExtraReached | src/inventory/boot_menu.py:177-181 | and some folder is exactly that deep |
| BootMenuForest.PreOrderExact | src/inventory/boot_menu.py:143-160 | the walk below a folder lists each folder under it exactly once and no other |
| BootMenuForest.PreOrderListings | src/inventory/boot_menu.py:143-160 | within the walk, each parent's children appear in their listing order |
| BootMenuForest.OrderedUnique | src/inventory/boot_menu.py:99-106 | a listing is the only arrangement of the rows sorted by order and id |
| BootMenu.Run | src/inventory/boot_menu.py:266-374 | every sequence of operations keeps the forest, unique sibling names, distinct sibling orders, at least one folder, and images in existing folders |
| BootMenu.CreateOk | src/inventory/boot_menu.py:266-285 | a created folder keeps all of these |
| BootMenu.UpdateExact | src/inventory/boot_menu.py:288-316 | an update with a valid name is accepted if and only if the parent exists, the result is still a forest within the depth bound and the name is free |
| BootMenu.UpdateOk | src/inventory/boot_menu.py:288-326 | an accepted update keeps the menu invariant |
| BootMenu.DeleteOk | src/inventory/boot_menu.py:333-352 | an accepted delete keeps the menu invariant |
| BootMenu.ReorderSwaps | src/inventory/boot_menu.py:359-374 | reordering transposes exactly the folder and its neighbour in the listing and changes no other parent's listing |
| BootMenu.ReorderOk | src/inventory/boot_menu.py:355-374 | reordering keeps the menu invariant, the images and every parent |
| BootMenu.OffersExactlyTheParents | src/inventory/boot_menu.py:200-204 | the offered parents are exactly those the update does not reject as a cycle |
| BootMenu.OptionsExact | src/inventory/boot_menu.py:143-160 | the folder options list every folder once, siblings in listing order |
| BootMenu.SeededOk | src/inventory/boot_menu.py:447-452 | the seeded folders satisfy the menu invariant |
| BootMenuTable.Table.FolderDepth | src/inventory/boot_menu.py:109-122 | the upward loop terminates on any rows and gives the depth on a forest |
| BootMenuTable.Table.IsSelfOrDescendant | src/inventory/boot_menu.py:184-197 | on any rows the upward walk ends and accepts exactly what parent steps reach; on a forest that is the folder and those below it |
| BootMenuTable.Table.DescendantIds | src/inventory/boot_menu.py:163-174 | the downward walk collects exactly the folders the upward walk finds below |
| BootMenuTable.Table.FolderOptions | src/inventory/boot_menu.py:143-160 | the nested walk gives the pre-order |
| BootMenuTable.Table.ParentFolderOptions | src/inventory/boot_menu.py:200-204 | the walk without the folder's own subtree |
| BootMenuTable.Table.SiblingClash | src/inventory/boot_menu.py:216-223 | true exactly when another sibling has the name up to case |
| BootMenuTable.Table.CreateFolder | src/inventory/boot_menu.py:266-285 | in place, creates or refuses as specified and leaves images alone |
| BootMenuTable.Table.UpdateFolder | src/inventory/boot_menu.py:288-326 | in place, renames and moves or refuses as specified |
| BootMenuTable.Table.DeleteFolder | src/inventory/boot_menu.py:333-352 | refused exactly for an unknown, last or non-empty folder; otherwise every other folder stays as it is, the menu invariant holds and the name is free again |
| BootMenuTable.Table.IsEmpty | src/inventory/boot_menu.py:333-342 | the two searches find out whether a folder is nested or an image placed in it |
| BootMenuTable.Table.ReorderFolder | src/inventory/boot_menu.py:359-374 | in place, swaps the two sort orders with the tie rule |
| BootMenuTable.Table.RootFolderNamed | src/inventory/boot_menu.py:240-245 | finds a root folder by name up to case, or none exactly when there is none |
| BootMenuTable.Table.FirstFolder | src/inventory/boot_menu.py:248-249 | the folder with the least id |
| BootMenuTable.Table.PlaceNewImage | src/inventory/boot_menu.py:252-263 | an image is placed in the wanted, the family's or the first folder, always an existing one |
| UefiOrder.BucketsAreStableSort | src/boot/uefi_order.py:96-118 | the bucket concatenation is a permutation and is the only stable sort by rank |
| UefiOrder.NewOrderIsPlanned | src/boot/uefi_order.py:79-121 | the new order is the current network entry followed by the stable sort of the rest, and a permutation |
| UefiOrder.ReorderIs | src/boot/uefi_order.py:79-121 | None if and only if the policy is unknown, there is no network entry or the order is already the planned one |
| UefiOrder.NewOrderTwice | src/boot/uefi_order.py:79-121 | reordering is idempotent |
| UefiOrder.Ipv4IsNetwork | src/boot/uefi_order.py:56-76 | an IPv4 description makes a network entry whatever the device path is |
| UefiOrder.ParseListing | src/boot/uefi_order.py:136-159 | the loop keeps the last order and current line and every entry |
| UefiOrder.UnlistedIsOther | src/boot/uefi_order.py:162-169 | an id of BootOrder without an entry is neither network nor disk |
| UefiOrder.PlanKeepsIds | src/boot/uefi_order.py:162-169 | a plan is a permutation of BootOrder, ids without an entry included |
| UefiOrder.PlanSettles | src/boot/uefi_order.py:162-169 | planning again after applying a plan gives None |
| StripAutoinstall.RunCommandsExactly | src/cloudinit/editor.py:1549-1581 | `runcmd` becomes the existing list followed by the kept early then late commands in order, complete and duplicate-free by text, none with an installer-only marker |
| StripAutoinstall.KeptExactly | src/cloudinit/editor.py:1565-1580 | each kept command is the first with its text, and every convertible command's text is present |
| StripAutoinstall.KeptUnmarked | src/cloudinit/editor.py:1488-1523 | no kept command carries an installer-only marker, before or after unwrapping |
| StripAutoinstall.UnwrappedContains | src/cloudinit/editor.py:1506-1517 | removing the `curtin in-target` prefix adds no marker |
| StripAutoinstall.CollectRunCommands | src/cloudinit/editor.py:1561-1580 | the loop over both lists computes exactly that `runcmd` |
| Tokens.ShowThenWrite | src/cloudinit/editor.py:109-120 | showing and writing a text back keeps its meaning if and only if it is not a lone placeholder with blanks around it |
| Values.DictMeaning | src/cloudinit/editor.py:1903-1929 | mappings without invented or repeated keys mean the same if and only if every entry is kept, in any order |
| EditorScalars.LeafLens | src/cloudinit/editor.py:405-651 | for every leaf field type, emit after an un-noted view never fails, and keeps the meaning if and only if the value is clean |
| EditorScalars.ChoicesKept | src/cloudinit/editor.py:1006-1015 | a choice list survives if and only if its items are trimmed and distinct |
| EditorScalars.CommandsKept | src/cloudinit/editor.py:559-583 | a command list survives if and only if no command is null and its words are clean |
| EditorScalars.MapKept | src/cloudinit/editor.py:586-614 | saving a viewed free mapping never fails, and keeps the meaning if and only if its texts are clean |
| EditorScalars.PackagesKept | src/cloudinit/editor.py:617-651 | an un-noted package value survives if and only if its placeholder has no blanks around it |
| EditorScalars.LayoutKept | src/cloudinit/editor.py:654-674 | a disk layout the form shows is saved as it was |
| EditorScalars.TupleKept | src/cloudinit/editor.py:777-796 | rows of positional cells never raise, and survive if and only if no cell is a placeholder in braces with blanks around it |
| EditorRefusals.ExactLens | src/cloudinit/editor.py:677-866 | for every schema and value together: after an un-noted view, saving keeps the meaning if and only if the value is clean and not refused, and a clean value raises if and only if it is refused |
| EditorRefusals.Refusal | src/cloudinit/editor.py:1290-1356 | a refused value always raises, and a clean one raises for no other reason |
| EditorRefusals.EmptyIsUnshown | src/cloudinit/editor.py:1310-1315 | a cell of a password row counts as empty if and only if the form does not show that key of the mapping |
| EditorLens.Lens | src/cloudinit/editor.py:677-866 | for every schema and value together: after an un-noted view, emit raises, or keeps the meaning if and only if the value is clean |
| EditorLens.MappingLens | src/cloudinit/editor.py:677-706 | saving a viewed mapping with its kept extra text invents and repeats no key, and means the same if and only if every modelled child is clean |
| EditorRefusals.MappingSaved | src/cloudinit/editor.py:1170-1202 | credential check aside, the kept extra text never makes the save of a viewed mapping raise: only a child can |
| EditorLens.ObjectLens | src/cloudinit/editor.py:709-728 | the law for nested objects, required keys included |
| EditorRefusals.ObjectRefusal | src/cloudinit/editor.py:1205-1214 | a nested object raises if a child is refused, and if clean only then |
| EditorLens.RowsLens | src/cloudinit/editor.py:799-866 | the law for every row-list shape: lists, named mappings, named scalars and either |
| EditorRefusals.RowsRefusal | src/cloudinit/editor.py:1290-1356 | a row list of any shape raises if a row is refused, and if clean only then: trimmed names of one mapping never collide |
| EditorDocument.PostedBack | src/cloudinit/editor.py:1834-1891 | posting back what the page showed raises on every refused document and on no other clean one; otherwise it invents and repeats no key and means the same if and only if every value is clean |
| EditorDocument.NoOp | src/cloudinit/editor.py:1834-1891 | saving the unedited page of any seed, installer or not, succeeds with the seed's meaning if and only if every value is clean, none is refused and user-data is absent or a mapping; clean values raise if and only if one is refused |
| EditorRender.RenderedReadsBack | src/cloudinit/editor.py:2069-2079 | whichever text a save returns, the seed, the splice or the full dump, it reads back as the seed the save built, given that the dump does |
| EditorRender.InstallerRendered | src/cloudinit/editor.py:2016-2079 | for every edit of an installer section the result is the seed text if nothing changed in meaning, otherwise the framed splice, and the full dump if and only if that splice does not read back |
| EditorRender.NoOpReturnsSeed | src/cloudinit/editor.py:2069-2079 | applying the unedited page of a clean seed raises if a value is refused, and otherwise returns the seed text itself, or the full dump if the header is missing or a list placeholder is misplaced |
| EditorDocument.UserDataTextIsLost | src/cloudinit/editor.py:1438-1442 | for every text as user-data the unedited save stores an empty mapping in its place |
| EditorDocument.InstallerSaved | src/cloudinit/editor.py:1811-1831 | the unedited save of an installer seed replaces user-data in place and leaves every other key as it was |
| EditorInstaller.EmitModelledKeys | src/cloudinit/editor.py:1744-1775 | the loop over modelled keys, with its early exits |
| EditorInstaller.UntouchedInstaller | src/cloudinit/editor.py:1739-1792 | posting back an untouched view returns the original mapping with the same values in the same order |
| EditorInstaller.EditInstaller | src/cloudinit/editor.py:1739-1792 | any posted document is refused if and only if some posted key raises or was never shown; otherwise each original key is kept, replaced or removed where it stands by what was posted for it alone, and new keys follow in schema order |
| EditorInstaller.EditOneKey | src/cloudinit/editor.py:1739-1792 | editing one shown key replaces or removes that entry in place and leaves every other value and position |
| EditorSplice.FindBlockEnd | src/cloudinit/editor.py:1957-1970 | the loop finds the end of a key's content |
| EditorSplice.ContentEndIs | src/cloudinit/editor.py:1957-1970 | that end is after the last content line deeper than the key and before trailing blanks and comments |
| EditorSplice.SpansTile | src/cloudinit/editor.py:1979-2013 | the spans of the keys tile the block without gap or overlap |
| EditorSplice.WriteKey | src/cloudinit/editor.py:2030-2050 | an unchanged key copies its span, a changed one replaces its content lines, a new one is appended as a block |
| EditorSplice.SpliceBody | src/cloudinit/editor.py:2030-2045 | the loop over the rebuilt mapping gives the body |
| EditorSplice.SpliceAutoinstall | src/cloudinit/editor.py:2016-2055 | the whole splice: nothing unless the block is plain, the surviving keys keep their order and the joined text reads back as the seed the save built |
| EditorSplice.SpliceFrame | src/cloudinit/editor.py:2016-2055 | the spliced text is the original lines with only changed keys' content replaced, removed keys' spans dropped and new keys appended, and it is given up if and only if it does not read back as the seed the save built |
| EditorSplice.CommentsSurvive | src/cloudinit/editor.py:2016-2055 | below the line of a changed key a line goes if and only if it or a later line is content the source finds for the key; every other line of the span stays, trailing comments and blanks among them |
| EditorSplice.StaleExactly | src/cloudinit/editor.py:1957-1970 | a changed key leaves none of its old content behind if and only if all of it is indented past the key |
| EditorSplice.NothingStaleExactly | src/cloudinit/editor.py:2016-2055 | a save leaves no old content behind if and only if that holds of every changed key that survives |
| EditorSplice.FlushListStays | src/cloudinit/editor.py:1957-1970 | a list at its key's own column: whatever replaces it, the old item stays below the new block |
| EditorSplice.UnchangedLines | src/cloudinit/editor.py:2016-2055 | an unchanged mapping gives back all lines |
| EditorSplice.UnchangedText | src/cloudinit/editor.py:2016-2055 | and therefore the same text, if that reads back as the seed the save built |
| EditorSplice.RebuiltInOrder | src/cloudinit/editor.py:1811-1831 | rebuilding keeps surviving keys in their original order, new ones after |
| EditorSplice.RebuiltSplice | src/cloudinit/editor.py:1811-1831 | so the splice of every installer edit is the framed text, or nothing if and only if that text does not read back as the save |
| EditorPackages.RowsRoundTrip | src/cloudinit/editor.py:1098-1128 | viewing the emitted form of well-formed package rows gives the rows back |
| EditorPackages.SavesMaximalRuns | src/cloudinit/editor.py:1098-1128 | emitted package lists have one group per maximal run of a manager |
| EditorPackages.ViewedIsKept | src/cloudinit/editor.py:617-651 | any viewable package list shows the same rows after a save |
| EditorLoops.RenameKeys | src/cloudinit/editor.py:388-402 | the alias loop renames as specified |
| EditorLoops.CollectFields | src/cloudinit/editor.py:677-706 | the loop splits a mapping into shown fields and extra |
| EditorLoops.CollectEmitted | src/cloudinit/editor.py:1191-1202 | the loop emits the fields and stops at the first error |
| EditorLoops.CollectRows | src/cloudinit/editor.py:1290-1341 | the loop emits the rows and stops at the first error |
| EditorLoops.CollectPackages | src/cloudinit/editor.py:1098-1128 | the loop groups package rows by run |
| EditorLoops.Mapping.MergeExtraText | src/cloudinit/editor.py:1170-1188 | credential check aside: in place, merges the parsed extra text; refuses exactly when it does not parse or a key repeats |
| EditorFindings.BlankPayloadIsDropped | src/cloudinit/editor.py:1328-1330 | a named row with blank text is shown and then dropped |
| EditorFindings.LonePlaceholderUnlisted | src/cloudinit/editor.py:985-993 | a list of one block placeholder is saved as the placeholder |
| EditorFindings.RepeatedChoiceMerged | src/cloudinit/editor.py:1006-1015 | a repeated choice is merged |
| EditorFindings.PaddedChoiceTrimmed | src/cloudinit/editor.py:1006-1015 | a choice with a blank before it is saved without |
| EditorFindings.PaddedNameTrimmed | src/cloudinit/editor.py:1318-1330 | a row name with a blank before it is saved without |
| EditorFindings.PasswordlessUserRefused | src/cloudinit/editor.py:1310-1315 | a chpasswd user with a typed password that is not there is shown without a notice, is clean, and cannot be saved |
| EditorFindings.NullCommandDropped | src/cloudinit/editor.py:559-583 | a null command is dropped |
| EditorFindings.OctalTextRetyped | src/cloudinit/editor.py:907-921 | octal-looking text comes back as a number |
| EditorFindings.PaddedPlaceholderTrimmed | src/cloudinit/editor.py:109-120 | for every placeholder, the text with a blank before it comes back trimmed and so means something else |
| WgetText.RewriteKeeps | src/seed_render.py:417-432 | rewriting an empty post option removes no marker that shares no text with the option |
| WgetText.RewriteAdds | src/seed_render.py:417-432 | and invents none |
| WgetText.NormalizedTwice | src/seed_render.py:417-432 | and is idempotent |
| SeedSections.EarlyTwice | src/seed_render.py:599-613 | treating the early commands again changes nothing if and only if dropping inline confirm commands lost neither marker |
| SeedSections.EarlySettles | src/seed_render.py:453-467 | after one treatment the confirm command is there, no inline one is, and no wget is left to rewrite |
| SeedSections.LateSettles | src/seed_render.py:359-378 | after one treatment the late commands reboot, sync synchronously and set the boot order when asked |
| SeedSections.LateUnchanged | src/seed_render.py:627-639 | settled late commands are left alone |
| SeedSections.LogSettles | src/seed_render.py:308-322 | the install-log command is there once treated, and is not added again |
| SeedSettles.NetworkMade | src/seed_render.py:654-672 | every card matched by name says whether it is optional; only cards under `ethernets` that did not get the flag, at their end, and nothing else changes |
| SeedSettles.NetworkDropped | src/seed_render.py:654-672 | dropping empty ssh-key lists keeps that |
| SeedSettles.SourceSettles | src/seed_render.py:722-735 | the source section names the wanted source and driver search, and then stays |
| SeedSettles.IdentitySettles | src/seed_render.py:683-752 | the identity section has every field user-data can supply and no reserved name, and one that has stays as it is |
| SeedSettles.DropTwice | src/seed_render.py:384-399 | dropping empty ssh-key lists at every level is idempotent |
| SeedIdentity.IdentityExactly | src/seed_render.py:738-752 | after both identity passes and the sweep the identity is in order if and only if it does not refill: the swept user-data can fill the swept identity, which was whole with a field the sweep empties or could not be filled before |
| SeedIdentity.RefillsExactly | src/seed_render.py:701-752 | for user-data that reads the same after the sweep: it refills if and only if the identity was whole, a field is a mapping of empty ssh-key lists only, and user-data supplies every such field |
| SeedPipeline.CompleteEstablishes | src/seed_render.py:755-815 | after the pipeline every pass's condition holds at once, the identity's exactly when it does not refill, and the Wi-Fi and imaging ones exactly when their markers survived |
| SeedPipeline.DoneTwice | src/seed_render.py:755-815 | a seed with the other conditions is left alone if and only if both markers are there |
| SeedPipeline.CompleteTwice | src/seed_render.py:755-815 | the pipeline applied to its own output changes nothing if and only if dropping inline confirm commands lost neither marker and the identity does not refill |
| SeedUrls.CommandsWellMade | src/seed_render.py:288-345 | for all URLs without blanks, quotes, backslashes and angle brackets that carry the marker of their own callback only, each generated command carries its own marker, is no inline helper and no asynchronous sync, has no empty post, and shares no marker with another |
| SeedUrls.RebootMade | src/seed_render.py:327-327 | the forced reboot is recognised as one and is not itself taken for an asynchronous sync |
| SeedUrls.WifiLacks | src/seed_render.py:333-345 | the Wi-Fi command holds no other command's marker and no confirm path |
| SeedCompletion.CompletedForUrls | src/seed_render.py:755-815 | with the real commands and defaults: every pass condition holds after one completion, the identity's exactly when it does not refill, and a second one changes nothing if and only if it does not and the markers survived |
| SeedCompletion.InlineCompletedTwice | src/seed_render.py:594-613 | a seed whose imaging callback sits in an inline confirm command is changed by a second completion |
| SeedCompletion.SweptHostRefilled | src/seed_render.py:738-752 | a seed whose host name is a mapping the sweep empties is changed by the second completion |
| SeedPipeline.UnattendedOk | src/seed_render.py:179-210 | the shipped defaults satisfy what the theorems ask of them |
| SeedPasses.Seed.FillDefaults | src/seed_render.py:777-785 | in place, adds exactly the missing defaults; changed exactly when something was missing |
| SeedPasses.Seed.EnsureQuietWifi | src/seed_render.py:458-467 | in place, prepends the Wi-Fi command unless present; the flag is exact |
| SeedPasses.Seed.EnsureImaging | src/seed_render.py:642-651 | in place, prepends the imaging callback unless present; the flag is exact |
| SeedPasses.Seed.EnsureConfirm | src/seed_render.py:599-613 | in place, drops inline confirm commands and prepends the confirm command unless present; the flag is exact |
| SeedPasses.Seed.EnsureInstallLog | src/seed_render.py:313-322 | in place, appends the log command unless present; the flag is exact |
| SeedPasses.Seed.NormalizeWgets | src/seed_render.py:435-450 | in place, rewrites early and late commands only; the flag is exact |
| SeedPasses.Seed.EnsureOptionalCards | src/seed_render.py:654-672 | in place, marks catch-all cards optional; the flag is exact |
| SeedPasses.Seed.DropTimezone | src/seed_render.py:675-680 | in place, removes only the timezone; the flag is exact |
| SeedPasses.Seed.EnsureSource | src/seed_render.py:722-735 | in place, merges the source section; the flag is exact |
| SeedPasses.Seed.EnsureIdentity | src/seed_render.py:738-752 | in place, fills and sanitises the identity; the flag is exact |
| SeedPasses.Seed.EnsureReboot | src/seed_render.py:359-378 | in place, forces the reboot and drops asynchronous syncs; the flag is exact |
| SeedPasses.Seed.EnsureUefiOrder | src/seed_render.py:627-639 | in place, inserts the boot-order command before the reboot when asked; the flag is exact |
| SeedPasses.Seed.DropEmptyKeys | src/seed_render.py:384-399 | the sweep over the whole document; the flag is exact |
| SeedPasses.Seed.SweepSections | src/seed_render.py:384-399 | key by key through the sections: empty ssh-key lists go, everything else is swept; the flag is exact |
| SeedPasses.SweepTree | src/seed_render.py:384-399 | the recursion through mappings and lists removes exactly the empty ssh-key lists at every depth; the flag is exact |
| SeedPasses.SweepEntries | src/seed_render.py:386-393 | the loop over one mapping keeps every other key in its place |
| SeedPasses.Seed.CompleteInPlace | src/seed_render.py:755-815 | the passes in the source's order give the completed document; no pass reports a change on a finished seed, and when none reports one nothing changed |

## Left out

- EditorLens.Lens: the `groups` row list is not in the schema; the code normalises it and announces it only in part.
- EditorLens.Lens: mappings are assumed to have no two keys that become the same text once placeholders are unshielded.
- EditorDocument.NoOp: credential and secret-line checks and the text of notices are not modelled, so a save that only they refuse counts as accepted; a refused save is `Bad`.
- EditorDocument.PostedBack: the credential checks on the top-level keys are not modelled.
- EditorRender.NoOpReturnsSeed: a seed that only the credential checks refuse counts as returned.
- EditorRender.RenderedReadsBack: that a full dump reads back is assumed; the parser of whole texts is a parameter, and so are the tests for the header and for misplaced placeholders.
- EditorRefusals.ExactLens: refusals by the credential and secret-line checks are not modelled.
- EditorRefusals.Refusal: a clean value that holds a literal credential raises in the source too.
- EditorRefusals.MappingSaved: the credential check of the kept extra text, which can raise too, is not modelled.
- EditorRefusals.ObjectRefusal: credential refusals of children and of the kept extra text are not modelled.
- EditorRefusals.RowsRefusal: credential refusals of cells and of the kept extra text are not modelled.
- EditorLoops.Mapping.MergeExtraText: the credential check of the extra text, which can refuse too, is not modelled.
- EditorScalars.LeafLens: the credential and secret-line refusals of single fields are not modelled.
- EditorLens.Lens: says only that a save raises or keeps the meaning; when it raises is `EditorRefusals.ExactLens`.
- EditorLens.MappingLens: when the merge or a child raises is `EditorRefusals.MappingSaved`.
- EditorLens.ObjectLens: when saving raises is `EditorRefusals.ObjectRefusal`.
- EditorLens.RowsLens: when saving raises is `EditorRefusals.RowsRefusal`.
- EditorScalars.MapKept: the credential checks on free mappings are not modelled.
- SeedPipeline.CompleteTwice: assumes no empty ssh-key list inside a command, which the pipeline turns into text before the list is dropped.
- SeedPipeline.CompleteTwice: the `autoinstall` mapping is keyed by section without key order; YAML text, comments and the final dump are not modelled.
- SeedUrls.CommandsWellMade: URLs with blanks, quotes, backslashes, angle brackets or other callbacks' markers are outside its condition.
- SeedSections.EarlyTwice: `str()` of values other than strings is an arbitrary function; argument lists holding nested lists or mappings, on which the source can raise, go through it like any other value.
- UefiOrder.ReorderIs: words are found on ASCII letters, digits and underscores, without Unicode case folding.
- UefiOrder.ParseListing: the line patterns of `efibootmgr` are a parameter; recognised lines are the input.
- EditorSplice.SpliceFrame: the marks of the keys and the reparse come from an abstract parser; of the marks it is assumed that they are those of a block mapping.
- Lab.Database.CreateInstallAttempt: the seed snapshot written beside the attempt, and the failure to write it, are not modelled.
- MachineIdentity.Registry.TouchMachine: IP address, hardware and hostname columns and the activity log are not modelled; manual registration is not either.
- BootMenuTable.Table.ReorderFolder: reordering images inside a folder is the same code and is not repeated; folder path labels and menu settings are left out.
- YAML, JSON and XML libraries: parsed trees, with dump and load an inverse pair; text has `\n` line ends, and stripping, case and digits are ASCII.
- Database sessions: each step is one atomic transaction that reads committed rows. New row ids are any unused id; instance ids are a counter that never repeats.
- 7-Zip and file copying: an extraction publishes a whole tree or fails and leaves the disk alone. Deletions through the file browser are not modelled.
- Templates without an ISO, tool images, legacy rows, schema migrations and worker-start backfills other than requeue and source refresh.
- Names of ISOs and templates, staged jobs, the activity log and seed files on disk.
- Catalog parsers for Ubuntu and WIM files: a catalog is an input.
- The PXE menu route, which is expiry followed by a stage or deploy; other HTTP routes, HTML and iPXE text.
- The Windows helper and unattend injection.
