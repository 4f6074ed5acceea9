# Verification of hvbattle's protocols

A Dafny model of five parts of hvbattle (`src/hvbattle`) and proofs of what they promise over every input,
every run and every interleaving.

- **Image containers** (`Bytes`, `ChunkLists`, `PngScanlines`, `Png`, `Jpeg`, `JpegScanner`, `Webp`,
  `WebpScanner`). The PNG, JPEG and WebP checkers as loops over byte strings, each proved to accept exactly the
  printings of an independent grammar, with its dimensions. CRC-32 and inflate are arbitrary functions.
- **Worker ownership** (`Ownership`, `OwnershipAccounting`, `OwnershipProtocol`, `OwnershipSafety`,
  `OwnershipTheorems`, `OwnershipService`, `OwnershipPredictions`, `OwnershipWitnesses`). Class `InferenceOwner` carries out the lock
  blocks on its tables and is proved equal to step functions; any number of preparation, prediction, cleanup,
  release, publication and close tasks then interleave those steps, and may fail between any two.
- **Generation store** (`StoreProtocol`, `StoreSafety`, `StoreTheorems`, `StoreResults`, `StoreProgress`,
  `StoreDurability`). Any number of
  processes with program counters over one directory, failing or crashing at any step; and class `Disk`, the
  same calls one after another with volatile and durable entries, power loss after any primitive and further calls
  on what it leaves. SHA-256, the id of two digests and classifier loading are arbitrary functions.
- **Submitted actions** (`Audit`, `ReceiptEvidence`, `SubmittedAction`, `ReloadRecovery`, `RunnerScript`,
  `RunnerResults`, `Runner`). The audit
  bus and trail, the click-and-wait calls, the reload recovery and the battle runner as classes and loops. The
  environment's probes, errors, timeouts, cancellations and deadline checks are a script given as input; when
  it runs out, the deadline has expired. The contracts say which answers of that script lead to which end.
- **Framing** (`Framing`). Blocking one-shot receives, and the panel's incremental reads and writes, for any
  payload limit.

Identities that the source makes unique (`uuid4` names, object identities) are fresh names. A worker or lease
object is a row of a table keyed by its identity. A lock block is one step because nothing else runs inside it.

Six results differ from what a reader of the source may expect.

- The final acceptance of a turn compares the baseline with itself when no probe came in time
  (`hv_battle_action_manager.py:1578-1604`). A baseline accepts itself exactly when its monitor already shows a
  normal response with log mutations (`ReceiptEvidence.TurnConfirmsItselfExactlyWhen`): on such a baseline, and on
  no other, a turn can return without any probe after its click (`SubmittedAction.ReturnsUnprobed`). The arming read
  creates a fresh monitor in the same evaluation (lines 100-125), so callers get a monitor that is not fresh only if
  the page misreports it: on a freshly armed baseline every normal return has an in-deadline probe behind it. A
  transition's baseline never confirms itself.
- A written receipt can still end in an exception: the cleanup in the finally block raises when the browser is lost
  or the task cancelled (lines 1650-1658). The trace has its one resolution all the same.
- Power safety needs the entry `generations` of the root to be durable before the pointer is replaced. On a new
  root, two calls whose deadlines expire between creating an entry and fsyncing the root lose that fsync for good
  (`ponychart_model_store.py:678-694`, 721-734). From an anchored root (`StoreDurability.Anchored`) every call is
  power safe at every step; from any other, every call that completes is not (`Disk.Install`).
  `FailuresCanUnanchor` is two such calls; a power loss leaves an anchored root.
- A worker whose generation id resolved to other paths at its READY block is neither indexed nor handed over
  (`_ponychart_workers.py:1147-1168` raises inside the block); it stays owned until the next activation or close.
  `UnaccountedWorkerIsReached` is a run that gets there.
- `_predict_labels` looks at its deadline between reserving a lease and predicting with it
  (`hv_battle_ponychart.py:2446-2454`), and an expired one is raised without a release. That lease is never
  released, its generation never drains and its worker never becomes idle (`AbandonedLeaseStays`, reached by
  `AbandonedLeaseIsReached`); every other exit releases (`ExitReleasesExactlyWhen`).
- Lease accounting holds because at most one `predict_reserved` call is made per lease, as both callers do.
  Attaching a lease a second time breaks it (`AttachingTwiceBreaksTheBooks`), and attaching keeps it exactly for an
  unattached lease (`AttachOnlyOnce`).

One smaller disagreement follows the code: the readiness error needs an observation to report
(`contracts.py:221-227`), so an expiry before the first observation surfaces as the general active-session error.

## Model

| member | source | states |
|---|---|---|
| PngScanlines.Adam7VisitsEveryPixel | src/hvbattle/_ponychart_image.py:164-176 | every pixel of a w by h image lies on a row and column of one of the seven passes (section 2.6 of RFC 2083) |
| PngScanlines.Adam7VisitsOnlyOnce | src/hvbattle/_ponychart_image.py:164-176 | no pixel is visited by two passes or twice by one |
| PngScanlines.PassesCountEveryPixel | src/hvbattle/_ponychart_image.py:164-182 | pass widths times pass heights sum to w*h, interlaced or not |
| PngScanlines.DecodedSizeBoundsPixels | src/hvbattle/_ponychart_image.py:177-189 | the decoded size holds every bit of every pixel: w*h*bits <= 8*size, for all images |
| PngScanlines.RowsAreMinimal | src/hvbattle/_ponychart_image.py:178-187 | a row takes the fewest bytes that hold the bits of its pixels, and a pass has as many rows as it visits lines |
| PngScanlines.ExpectedScanlines | src/hvbattle/_ponychart_image.py:157-189 | the loop returns all row groups exactly when their total stays within 128 MiB, and that total bounds the pixels |
| PngScanlines.ScanlinesOfPasses | src/hvbattle/_ponychart_image.py:178-189 | accumulating with an early stop equals computing all groups and comparing the total |
| PngScanlines.RowsTileDecodedSize | src/hvbattle/_ponychart_image.py:196-218 | the rows tile the decoded bytes: the last one ends at the decoded size |
| PngScanlines.RowStartInGroup | src/hvbattle/_ponychart_image.py:213-218 | the strided index of row i of a group is the start of that row in the whole image |
| PngScanlines.FiltersBelowFive | src/hvbattle/_ponychart_image.py:212-219 | the strided walk accepts exactly when the first byte of every row is at most 4 |
| PngScanlines.GroupFiltersBelowFive | src/hvbattle/_ponychart_image.py:214-217 | one group's walk checks exactly that group's row starts |
| PngScanlines.ValidateScanlines | src/hvbattle/_ponychart_image.py:192-219 | accepts exactly when inflating ends cleanly at the expected size and every row filter is legal |
| Png.ChunksOfPrint | src/hvbattle/_ponychart_image.py:62-78 | reading back any printed list of chunks yields that list |
| Png.PrintOfChunks | src/hvbattle/_ponychart_image.py:62-78 | printing what was read gives back the bytes that were read, checksums included |
| Png.PrintIsInjective | src/hvbattle/_ponychart_image.py:62-78 | two chunk lists that print alike are equal |
| Png.ImageIsUnique | src/hvbattle/_ponychart_image.py:48-154 | a file has at most one decomposition into chunks and one size |
| Png.ImageLayout | src/hvbattle/_ponychart_image.py:80-152 | in an accepted list IHDR is first and only first, IEND last and only last, image data contiguous, the palette at most once and before it |
| Png.ReadOfPutHeader | src/hvbattle/_ponychart_image.py:82-86 | every header field is read from where it is written |
| Png.PutOfReadHeader | src/hvbattle/_ponychart_image.py:82-86 | thirteen header bytes are determined by the seven fields read from them |
| Png.ReadChunk | src/hvbattle/_ponychart_image.py:63-78 | reads exactly the next chunk whose length, type and checksum are right, or none |
| Png.Judge | src/hvbattle/_ponychart_image.py:80-152 | with its flags, accepts a chunk exactly where the ordering rules allow it |
| Png.CheckPixels | src/hvbattle/_ponychart_image.py:135-144 | the size is returned exactly when the concatenated image data fits the header's scanlines |
| Png.ValidatePng | src/hvbattle/_ponychart_image.py:48-154 | accepts a byte string, with these dimensions, exactly when it is the signature and the printing of a well-ordered chunk list whose data fits; otherwise no such list exists |
| Jpeg.ReadOfPrint | src/hvbattle/_ponychart_image.py:222-308 | reading the printing of any legal list of segments and scans, with stuffed entropy bytes and fill, yields that list |
| Jpeg.PrintOfRead | src/hvbattle/_ponychart_image.py:222-308 | printing what was read gives back the bytes |
| Jpeg.ReadItemsOfPrint | src/hvbattle/_ponychart_image.py:285-306 | entropy bytes, stuffed bytes and restart markers are read back up to the marker that ends them |
| Jpeg.ItemsOfReadItems | src/hvbattle/_ponychart_image.py:285-306 | what entropy reading consumed prints back to the same bytes |
| Jpeg.FrameHeaderOfPut | src/hvbattle/_ponychart_image.py:259-268 | each dimension is read from where a frame header stores it, and the header is valid exactly with a size and a component |
| Jpeg.PutOfFrameHeader | src/hvbattle/_ponychart_image.py:259-268 | a valid frame header is determined by its precision, its dimensions and its components |
| JpegScanner.RunMeansImage | src/hvbattle/_ponychart_image.py:244-308 | the scanner's fold over segments succeeds exactly for an image: frames before scans, equal frame sizes, a scan that carries data |
| JpegScanner.PrintIsExpected | src/hvbattle/_ponychart_image.py:222-308 | printing any image gives a file that is accepted with its dimensions (Annex B of ITU-T T.81) |
| JpegScanner.ExpectedIsPrint | src/hvbattle/_ponychart_image.py:222-308 | every accepted file is the printing of an image with those dimensions |
| JpegScanner.DocumentIsUnique | src/hvbattle/_ponychart_image.py:222-308 | a file is the printing of at most one document |
| JpegScanner.DocumentEnds | src/hvbattle/_ponychart_image.py:223-249 | every printed document ends with EOI as its last bytes |
| JpegScanner.ScanEntropy | src/hvbattle/_ponychart_image.py:285-306 | the byte loop over a scan agrees with the grammar's reading of items, and stops at the pending marker |
| JpegScanner.ReadSegment | src/hvbattle/_ponychart_image.py:252-257 | a segment is read exactly when its length field fits the file |
| JpegScanner.CheckFrame | src/hvbattle/_ponychart_image.py:259-273 | a frame header is accepted exactly with legal fields and the size of the frames before it |
| JpegScanner.ScanJpeg | src/hvbattle/_ponychart_image.py:226-308 | the scanner with its pending marker computes what the grammar says of the file |
| JpegScanner.ValidateJpeg | src/hvbattle/_ponychart_image.py:222-308 | accepts exactly the printings of images, with their dimensions |
| JpegScanner.SkipFill | src/hvbattle/_ponychart_image.py:234-235 | skips exactly the fill bytes |
| JpegScanner.SkipToMarker | src/hvbattle/_ponychart_image.py:231-239 | finds the marker behind any fill, or the end of the file |
| JpegScanner.NextMarker | src/hvbattle/_ponychart_image.py:231-242 | what follows the marker reads on as the grammar does, and without one nothing reads |
| JpegScanner.CheckScanHeader | src/hvbattle/_ponychart_image.py:278-282 | a scan header is accepted exactly with as many entries as it announces, at least one |
| JpegScanner.ScanSegment | src/hvbattle/_ponychart_image.py:252-306 | one segment or scan moves the scanner to a state with the outcome the grammar gives the rest, and forward |
| Webp.ChunksOfPrint | src/hvbattle/_ponychart_image.py:382-390 | reading a printed list of padded chunks yields that list |
| Webp.PrintOfChunks | src/hvbattle/_ponychart_image.py:382-390 | a byte string that reads as chunks is exactly tiled by them |
| Webp.UnpackOfPack | src/hvbattle/_ponychart_image.py:318-325 | VP8L packs and unpacks every 14-bit width and height from 1 to 16384 (section 3.4 of RFC 9649) |
| Webp.PackOfUnpack | src/hvbattle/_ponychart_image.py:318-325 | the five VP8L bytes are determined by the dimensions, the alpha bit and the version |
| Webp.Vp8OfPut | src/hvbattle/_ponychart_image.py:326-333 | the lossy header's sizes are read from where they are written, whatever their scale bits |
| Webp.CanvasOfPut | src/hvbattle/_ponychart_image.py:392-400 | the canvas is read from where the extended header stores it, and the animation flag is its second bit |
| Webp.FrameHeaderOfPut | src/hvbattle/_ponychart_image.py:337-345 | a frame's size is read from where it is written, and it is inside the canvas exactly if its corner in pixels plus its size is |
| Webp.WellOrderedAt | src/hvbattle/_ponychart_image.py:392-422 | every chunk of an accepted list was allowed after the chunks before it |
| Webp.ImageIsUnique | src/hvbattle/_ponychart_image.py:369-439 | a file has at most one tiling and one size |
| Webp.FramesStayInside | src/hvbattle/_ponychart_image.py:409-422 | each animation frame of an accepted file has the size of its bitstream and lies inside the returned canvas |
| WebpScanner.ReadChunk | src/hvbattle/_ponychart_image.py:382-390 | reads exactly the next padded chunk, or none |
| WebpScanner.SoleBitstreamOf | src/hvbattle/_ponychart_image.py:344-362 | the nested loop finds the size of the one bitstream of a frame's tiling, or there is no such frame |
| WebpScanner.JudgeCanvas | src/hvbattle/_ponychart_image.py:392-400 | a canvas chunk is accepted exactly in first place with legal fields |
| WebpScanner.JudgeFrame | src/hvbattle/_ponychart_image.py:409-422 | a frame is accepted exactly when it is complete, after the animation header, inside a declared canvas |
| WebpScanner.CheckRiff | src/hvbattle/_ponychart_image.py:370-374 | the RIFF header is required, with the size of the rest of the file |
| WebpScanner.Conclude | src/hvbattle/_ponychart_image.py:426-439 | the remembered tiling shows exactly the returned size, or nothing |
| WebpScanner.ValidateFrame | src/hvbattle/_ponychart_image.py:337-366 | a frame payload is accepted exactly when it holds one bitstream of its declared size |
| WebpScanner.Judge | src/hvbattle/_ponychart_image.py:392-422 | the flags accept a chunk exactly where the container allows it |
| WebpScanner.ScanChunks | src/hvbattle/_ponychart_image.py:376-427 | the chunk loop ends with flags that remember the whole tiling, or the file shows nothing |
| WebpScanner.ValidateWebp | src/hvbattle/_ponychart_image.py:369-439 | accepts exactly the RIFF files tiled by padded chunks that show a still of one agreeing bitstream or an animation inside its canvas |
| Ownership.Usable | src/hvbattle/_ponychart_workers.py:966-981 | finds the indexed worker only with exactly the descriptor asked for, alive, not superseded, not being cleaned and not ended; a conflict exactly when the id is indexed with other paths; `OwnershipService.FoundExactlyWhenServing` is the exact statement |
| Ownership.InferenceOwner.UsableState | src/hvbattle/_ponychart_workers.py:966-981 | the lookup on the fields is the specification's, conflict error included |
| Ownership.InferenceOwner.TryBeginSpawn | src/hvbattle/_ponychart_workers.py:904-907 | refused exactly when closing, otherwise one more spawn in flight |
| Ownership.InferenceOwner.RegisterWorker | src/hvbattle/_ponychart_workers.py:936-939 | a started worker becomes owned and nothing else changes |
| Ownership.InferenceOwner.SpawnEnded | src/hvbattle/_ponychart_workers.py:952-954 | one spawn fewer in flight |
| Ownership.InferenceOwner.TryClaimCleanup | src/hvbattle/_ponychart_workers.py:1017-1027 | one owner of a cleanup at a time; a reaped worker is complete |
| Ownership.InferenceOwner.CleanupFinished | src/hvbattle/_ponychart_workers.py:1003-1015 | proved cleanup ends ownership and drops the index entry only if it is this worker's |
| Ownership.InferenceOwner.EnlistReady | src/hvbattle/_ponychart_workers.py:1149-1164 | the READY block: indexed, redundant, unresolved or conflicting, with the whole new state |
| Ownership.InferenceOwner.ReserveLease | src/hvbattle/_ponychart_workers.py:1280-1298 | a lease on the usable worker, a pending one, or a refusal |
| Ownership.InferenceOwner.AttachPendingLease | src/hvbattle/_ponychart_workers.py:1300-1318 | moves one pending count to the worker and retires it when superseded |
| Ownership.InferenceOwner.ReleaseLease | src/hvbattle/_ponychart_workers.py:1510-1531 | the new state and the worker that the releasing caller must clean up |
| Ownership.InferenceOwner.ActivateGeneration | src/hvbattle/_ponychart_workers.py:1421-1444 | the loop over owned workers retires all but the new generation's and returns the idle ones |
| Ownership.InferenceOwner.RetireWorker | src/hvbattle/_ponychart_workers.py:1540-1548 | marks one worker superseded |
| Ownership.InferenceOwner.StartClosing | src/hvbattle/_ponychart_workers.py:1707-1709 | closing is set and no generation stays active |
| Ownership.InferenceOwner.RetireOwned | src/hvbattle/_ponychart_workers.py:1732-1735 | the snapshot of owned workers, all superseded |
| OwnershipAccounting.LeaseOnKeeps | src/hvbattle/_ponychart_workers.py:1291-1294 | a direct lease keeps conservation, descriptors, ownership and the retirement marks, and makes no worker idle |
| OwnershipAccounting.LeasePendingKeeps | src/hvbattle/_ponychart_workers.py:1295-1298 | a pending lease keeps them |
| OwnershipAccounting.AttachKeeps | src/hvbattle/_ponychart_workers.py:1305-1318 | attaching an unattached lease to a worker of its descriptor keeps them |
| OwnershipAccounting.ClampsNeverAct | src/hvbattle/_ponychart_workers.py:1519-1529 | the counter of an unreleased lease is positive, so a release clamp never hides a lost lease |
| OwnershipAccounting.ReleaseKeeps | src/hvbattle/_ponychart_workers.py:1510-1531 | a release keeps them, and every worker it leaves idle is handed out by it |
| OwnershipAccounting.FinishKeeps | src/hvbattle/_ponychart_workers.py:1003-1015 | finished cleanup keeps them: a worker is owned exactly until it is reaped |
| OwnershipSafety.StepKeeps | src/hvbattle/_ponychart_workers.py:897-1760 | every lock block of every task, and every failure between blocks, keeps the whole invariant |
| OwnershipSafety.ReadyKeeps | src/hvbattle/_ponychart_workers.py:1147-1168 | the READY block keeps it in all four outcomes |
| OwnershipSafety.AttachLeaseKeeps | src/hvbattle/_ponychart_workers.py:1300-1318 | the attach block keeps it, under any interleaving since the worker was chosen |
| OwnershipSafety.ActivateLockedKeeps | src/hvbattle/hv_battle_ponychart.py:1518-1527 | activation inside the publication lock keeps it, refused or not |
| OwnershipSafety.FinishWorkerKeeps | src/hvbattle/_ponychart_workers.py:1003-1015 | a finished cleanup keeps it, proved or failed |
| OwnershipSafety.SnapshotOwnedKeeps | src/hvbattle/_ponychart_workers.py:1732-1735 | the close snapshot keeps it and covers every owned worker |
| OwnershipTheorems.RunsAreSafe | src/hvbattle/_ponychart_workers.py:897-1760 | the invariant holds after every run of any number of tasks |
| OwnershipTheorems.CloseQuiescence | src/hvbattle/_ponychart_workers.py:1706-1751 | once closing with no spawn in flight, ownership never grows and no lease, activation or spawn is admitted again |
| OwnershipTheorems.NormalCloseIsFinal | src/hvbattle/_ponychart_workers.py:1732-1751 | a close that returned normally leaves nothing owned, for ever |
| OwnershipTheorems.SupersededDrains | src/hvbattle/_ponychart_workers.py:1280-1318 | while a generation is not active, its set of unreleased leases only shrinks |
| OwnershipTheorems.LoadIsOutstanding | src/hvbattle/_ponychart_workers.py:1280-1318 | the sum of a generation's worker counters and its pending count is the number of its unreleased leases |
| OwnershipTheorems.SupersededLoadNeverGrows | src/hvbattle/_ponychart_workers.py:1280-1318 | so that sum never increases while the generation is not active |
| OwnershipTheorems.ActivateHandsOutTheUnattached | src/hvbattle/_ponychart_workers.py:1436-1444 | activate hands out exactly the other owned workers to which no unreleased lease is attached |
| OwnershipTheorems.NoSupersededWorkerLeaks | src/hvbattle/_ponychart_workers.py:1510-1548 | a superseded worker without unreleased leases has been reaped or handed to a caller for cleanup |
| OwnershipTheorems.LastReleaseHandsOut | src/hvbattle/_ponychart_workers.py:1510-1538 | in an open owner a release from a worker of a superseded generation hands that worker out exactly when it was its last lease |
| OwnershipTheorems.AttachNeverLosesAccounting | src/hvbattle/_ponychart_workers.py:1306-1310 | a prediction is refused at the attach block exactly when its lease was released; the lost-accounting error cannot occur |
| OwnershipTheorems.AttachOnlyOnce | src/hvbattle/_ponychart_workers.py:1300-1318 | attaching keeps the books exactly for a lease that is not attached yet |
| OwnershipTheorems.AttachedWorkerMatches | src/hvbattle/_ponychart_workers.py:956-964 | after every run an attached lease's worker has the lease's descriptor |
| OwnershipTheorems.IndexEntryIsKept | src/hvbattle/_ponychart_workers.py:1156-1162 | an index entry of a running worker is never overwritten; only that worker's proved cleanup drops it |
| OwnershipTheorems.SoleCleanup | src/hvbattle/_ponychart_workers.py:1017-1027 | after every run at most one cleanup per worker is in progress, on an owned worker |
| OwnershipTheorems.ReadyWorkerIsAccountedFor | src/hvbattle/_ponychart_workers.py:1147-1168 | a READY worker ends indexed or handed over exactly when its generation id did not resolve to other paths in an open owner |
| OwnershipTheorems.PublicationAgrees | src/hvbattle/hv_battle_ponychart.py:1483-1527 | after every run, outside the two assignments of a publication, an open owner's active generation is the published one |
| OwnershipTheorems.PredictionLeasesThePublished | src/hvbattle/hv_battle_ponychart.py:2440-2446 | under the publication lock a lease is granted for exactly the published descriptor, and refused only on a path conflict |
| OwnershipTheorems.RefusedActivationChangesNothing | src/hvbattle/hv_battle_ponychart.py:1524-1527 | a refused activation changes neither the owner nor the publication |
| OwnershipService.FoundExactlyWhenServing | src/hvbattle/_ponychart_workers.py:966-981 | a lookup finds a worker exactly when it is alive and serves that descriptor, whatever leases it has |
| OwnershipService.ReservingLeavesTheLookup | src/hvbattle/_ponychart_workers.py:1280-1298 | a reservation of any descriptor changes no lookup |
| OwnershipService.ReleasingLeavesTheLookup | src/hvbattle/_ponychart_workers.py:1510-1531 | a release changes no lookup |
| OwnershipService.RefusedExactlyWhen | src/hvbattle/_ponychart_workers.py:904-907 | a spawn is refused exactly while closing, a lease exactly for a generation that is not active or has other paths, an activation exactly while closing or without an alive worker that serves |
| OwnershipService.LeasedExactlyWhen | src/hvbattle/_ponychart_workers.py:1280-1298 | a granted lease is attached exactly to the alive worker that serves, and waits for one otherwise |
| OwnershipService.SelectedExactlyWhen | src/hvbattle/_ponychart_workers.py:1149-1164 | a READY worker is indexed exactly in an open owner whose entry for the generation is missing or ended, and redundant exactly beside one that serves |
| OwnershipService.SelectedIsFound | src/hvbattle/_ponychart_workers.py:1149-1164 | a worker indexed at its READY block is what later lookups find while it lives, unless somebody retired or claimed it |
| OwnershipService.ActivationLeavesOne | src/hvbattle/_ponychart_workers.py:1421-1444 | activation of a serving worker succeeds and supersedes exactly every other owned worker |
| OwnershipService.GrantedExactlyWhen | src/hvbattle/_ponychart_workers.py:1017-1027 | after every run a cleanup is granted exactly for an owned worker that no other cleanup is at, waits for one that is, and is complete for a worker no longer owned |
| OwnershipService.CleanupFreesTheEntry | src/hvbattle/_ponychart_workers.py:1003-1015 | proved cleanup frees exactly this worker's index entry and is complete for every later claim; a failed one can be claimed again |
| OwnershipService.ActiveWorkerServes | src/hvbattle/_ponychart_workers.py:1280-1298 | until its generation stops being active, or somebody retires it or claims its cleanup, a serving worker is found, leased and activated again in every state of every run in which it is alive |
| OwnershipService.ServingWorkerIsAttached | src/hvbattle/_ponychart_workers.py:1320-1420 | a prediction's task that finds its worker serving attaches its lease to it in two steps |
| OwnershipService.PreparationServes | src/hvbattle/_ponychart_workers.py:1097-1174 | in an open owner with no entry for the generation, a preparation that nobody disturbs ends with its new worker serving |
| OwnershipService.PreparedLeaseIsAttached | src/hvbattle/_ponychart_workers.py:1320-1420 | and attaches the lease it was made for |
| OwnershipService.PublicationSucceeds | src/hvbattle/hv_battle_ponychart.py:1518-1527 | a publication of a descriptor with an alive serving worker is carried through: published, active, every other owned worker superseded |
| OwnershipService.CloseCanReturn | src/hvbattle/_ponychart_workers.py:1706-1751 | a close that sees no spawn in flight can go on to return, whatever is owned and whoever is cleaning it up |
| OwnershipPredictions.StepFollows | src/hvbattle/_ponychart_workers.py:1550-1679 | every step keeps that a lease is released exactly when its call has released it, and is worked on only past its deadline check |
| OwnershipPredictions.ReleasedExactlyWhen | src/hvbattle/hv_battle_ponychart.py:2440-2459 | after every run a lease is released exactly when a step of that run let its call past the deadline check, or reserved it for a call without one, and a later step ended the call |
| OwnershipPredictions.PassedExactlyWhen | src/hvbattle/hv_battle_ponychart.py:2446-2459 | at every point of a run a call is predicting, or has ended, exactly when an earlier step let it past its deadline check or reserved without one |
| OwnershipPredictions.ExitReleasesExactlyWhen | src/hvbattle/hv_battle_ponychart.py:2440-2459 | a reserved lease is released at the end of its call exactly when the deadline check between reserving and predicting had not expired |
| OwnershipPredictions.AbandonedForEver | src/hvbattle/hv_battle_ponychart.py:2446-2454 | no step of any task ever attaches, releases or predicts with a lease whose deadline check expired |
| OwnershipPredictions.AbandonedLeaseStays | src/hvbattle/hv_battle_ponychart.py:2446-2454 | in every later state such a lease is unreleased, its generation's load is at least one, and a worker it was reserved on is never idle and never handed out by a release or an activation |
| OwnershipWitnesses.AbandonedLeaseIsReached | src/hvbattle/hv_battle_ponychart.py:2446-2454 | a run from the empty system reaches such a lease |
| OwnershipWitnesses.UnaccountedWorkerIsReached | src/hvbattle/_ponychart_workers.py:1147-1168 | a run from the empty system reaches a running, owned worker that is neither indexed nor handed over nor known to a task |
| OwnershipWitnesses.AttachingTwiceBreaksTheBooks | src/hvbattle/_ponychart_workers.py:1305-1318 | a state with sound books in which the attach block lets an attached lease through a second time and counts it twice |
| StoreSafety.GenerationsNeverChange | src/hvbattle/ponychart_model_store.py:743-801 | no step of any process, failing, crashing or not, changes or removes a directory with a generation's name |
| StoreSafety.StepKeeps | src/hvbattle/ponychart_model_store.py:472-645 | every step of every process keeps the store's invariant |
| StoreSafety.PromotedKeeps | src/hvbattle/ponychart_model_store.py:1081-1101 | a promotion keeps it, with and without an existing directory |
| StoreSafety.ReplacedKeeps | src/hvbattle/ponychart_model_store.py:1252-1291 | a pointer replacement keeps it and records what it replaced |
| StoreSafety.DiscardKeeps | src/hvbattle/ponychart_model_store.py:1295-1299 | discarding a stage keeps it |
| StoreSafety.SecondReadKeeps | src/hvbattle/ponychart_model_store.py:537-557 | the second look at the pointer keeps it in all four outcomes |
| StoreTheorems.RunsAreSafe | src/hvbattle/ponychart_model_store.py:472-645 | the invariant holds after every run of any number of processes |
| StoreTheorems.GenerationsAreImmutable | src/hvbattle/ponychart_model_store.py:743-801 | visible generations keep name and contents in every run |
| StoreTheorems.PointerIntegrity | src/hvbattle/ponychart_model_store.py:1252-1291 | after any commit `current.json` holds the id of a directory whose manifest, hashes, sizes and id agree and that loads; a valid start never turns invalid |
| StoreTheorems.CommitsReplaceWhatTheyExpected | src/hvbattle/ponychart_model_store.py:619-629 | each pointer change replaced exactly the generation and ETags its committer expected |
| StoreTheorems.PointerChangesUnderTheLock | src/hvbattle/ponychart_model_store.py:619-629 | the pointer is written only by the lock's holder that finds the value it expected |
| StoreTheorems.OnlyStagesDisappear | src/hvbattle/ponychart_model_store.py:1295-1299 | a directory entry that disappears is the staging directory of the process that moved |
| StoreTheorems.ResultsMatchThePointer | src/hvbattle/ponychart_model_store.py:504-567 | every normal return was true of `current.json` at some instant inside its call, and its generation is intact; CURRENT rests on complete ETags equal to those the call saw, or on a commit inside the call |
| StoreTheorems.PointerNeverDisappears | src/hvbattle/ponychart_model_store.py:537-541 | the two errors for a pointer that disappeared are unreachable |
| StoreTheorems.LockExcludes | src/hvbattle/ponychart_model_store.py:660-719 | at most one process is between taking and releasing the process lock |
| StoreResults.ResultsFollowTheLooks | src/hvbattle/ponychart_model_store.py:472-567 | a call that returned read the pointer exactly as often as it had to, wrote it exactly when its last look found what it expected, and answers what it wrote or read last; each look found the pointer of an instant inside the call |
| StoreResults.RefreshLooksAtTheRemote | src/hvbattle/ponychart_model_store.py:523-557 | a refresh that found the published generation returns only with the remote's metadata, and answers UPDATED with that generation only behind a first read that found no pointer |
| StoreResults.StoredETagsAgree | src/hvbattle/ponychart_model_store.py:767-793 | the ETags written with a generation never disagree with the metadata looked up before its download |
| StoreResults.UndisturbedCallEnds | src/hvbattle/ponychart_model_store.py:472-567 | a call that nobody disturbs ends as what it finds decides: another generation is loaded, the published intact one is current exactly with the same complete ETags, and everything else is a download, published exactly when it is one bundle that loads under its name |
| StoreProgress.NoCallFailsByItself | src/hvbattle/ponychart_model_store.py:472-645 | whatever other processes do, fail at or crash in, a call whose own operations succeed and whose remote serves one bundle that loads never raises |
| StoreProgress.EveryCallCanReturn | src/hvbattle/ponychart_model_store.py:472-645 | after every run such a call returns within 13 steps of its own once the lock is free |
| StoreDurability.Disk.PrepareDirectories | src/hvbattle/ponychart_model_store.py:721-734 | creates and fsyncs `generations`, power safe at every step; a later call does not repeat a missed fsync; it proceeds exactly when nothing fails |
| StoreDurability.Disk.LockFile | src/hvbattle/ponychart_model_store.py:678-694 | after it the entry `generations` is durable exactly when the root was anchored before; it proceeds exactly when nothing fails |
| StoreDurability.Disk.NewStage | src/hvbattle/ponychart_model_store.py:736-741 | its fsync makes every entry of `generations` durable, earlier renames included; an existing stage is an error that changes nothing; it proceeds exactly for a new name when nothing fails |
| StoreDurability.Disk.CopyBody | src/hvbattle/ponychart_model_store.py:839-866 | the chunk loop leaves a prefix of the body, never more than announced, and proceeds exactly when the body is no longer than announced and nothing fails |
| StoreDurability.Disk.Download | src/hvbattle/ponychart_model_store.py:803-885 | succeeds exactly with a body of the announced, allowed size when nothing fails; the file is then fsynced |
| StoreDurability.Disk.ValidateStage | src/hvbattle/ponychart_model_store.py:1040-1079 | the finished stage is durable and its manifest, hashes and id agree; it proceeds exactly when the pair loads and nothing fails |
| StoreDurability.Disk.Promote | src/hvbattle/ponychart_model_store.py:1081-1101 | the generation's entry is durable afterwards, although an existing name is not fsynced again; it is the stage, or what had the name already |
| StoreDurability.Disk.CommitPointer | src/hvbattle/ponychart_model_store.py:1252-1291 | with `generations` durable, power loss leaves the old pointer or the new one and its generation; without it, a completed replacement was exposed; it proceeds exactly when nothing fails |
| StoreDurability.Disk.DiscardStage | src/hvbattle/ponychart_model_store.py:1295-1299 | removes at most the stage, power safe at every step, and exactly the stage when nothing fails |
| StoreDurability.Disk.PrepareDownload | src/hvbattle/ponychart_model_store.py:743-801 | only the stage changes, power safe at every step; it proceeds exactly when both bodies have their announced, allowed sizes, the pair loads and nothing fails, and the stage is then durable and agrees with its id |
| StoreDurability.Disk.PublishPrepared | src/hvbattle/ponychart_model_store.py:595-645 | with `generations` durable, the promotion and the commit are power safe at every step; it proceeds exactly when a directory that has the name already is that generation and loads, and nothing fails |
| StoreDurability.Disk.Install | src/hvbattle/ponychart_model_store.py:486-502 | from an anchored root, a whole installing call stopped by a crash or an exception anywhere is power safe at every step, with the old pointer file or that of the two downloaded bodies; from any other root every call that completes passes through a state that is not; it installs exactly when its stage is new, both bodies have their announced, allowed sizes, the pair loads, a directory of that id is that generation and loads, and nothing fails |
| StoreDurability.Disk.InstallAll | src/hvbattle/ponychart_model_store.py:487-567 | so is any sequence of calls that do not overlap, with a power loss behind any of them, once `generations` is durable; the pointer file that is left is the one from the start or that of one of the calls |
| StoreDurability.SurvivorIsSettled | src/hvbattle/ponychart_model_store.py:721-734 | whatever a power loss leaves of a root, the next start finds complete generations, a pointer that names one, and an anchored root |
| StoreDurability.Disk.LosePower | src/hvbattle/ponychart_model_store.py:721-734 | after a power loss the pointer file is one of those possible before, and a durable `generations` stays durable |
| StoreDurability.ReplaceIsSafeExactlyWhen | src/hvbattle/ponychart_model_store.py:1289-1290 | replacing the pointer is power safe exactly when `generations` and the generation's entry are durable |
| StoreDurability.FailuresCanUnanchor | src/hvbattle/ponychart_model_store.py:678-734 | two installing calls on a new root that fail behind creating an entry and before fsyncing the root leave one from which that is not guaranteed |
| StoreDurability.OverlapCanLoseTheGeneration | src/hvbattle/ponychart_model_store.py:1094-1101 | overlapping calls lose the guarantee: the branch for an existing name relies on an fsync that came before the rename |
| Audit.LawfulIsLifecycle | src/hvbattle/audit.py:293-412 | the stage automaton accepts exactly the written-out lifecycles |
| Audit.PrefixesAreLawful | src/hvbattle/audit.py:293-412 | every prefix of a lawful trace is lawful, so a writer that fails midway leaves one |
| Audit.ResolutionsByStage | src/hvbattle/audit.py:310-320 | a lawful trace has no resolution before, one at, and at most two after its resolution, two only for an unknown that was reconciled |
| Audit.AuditEventBus.Publish | src/hvbattle/audit.py:476-496 | writes at most the event and fails exactly when the writer does; after the first failure nothing more is ever written |
| Audit.ActionAuditTrail.RecordIntent | src/hvbattle/audit.py:327-333 | writes the intent once; its flag is set exactly when the write is known to have succeeded |
| Audit.ActionAuditTrail.MarkSubmitted | src/hvbattle/audit.py:339-344 | writes the submission once, after the intent and before any resolution |
| Audit.ActionAuditTrail.MarkNotSubmitted | src/hvbattle/audit.py:346-357 | never after a submission or a resolution |
| Audit.ActionAuditTrail.ConfirmReceipt | src/hvbattle/audit.py:359-375 | never after any resolution |
| Audit.ActionAuditTrail.MarkOutcomeUnknown | src/hvbattle/audit.py:377-393 | never after any resolution |
| Audit.ActionAuditTrail.ConfirmReconciliation | src/hvbattle/audit.py:395-412 | once, also after an unknown outcome |
| ReceiptEvidence.TurnConfirmsItselfExactlyWhen | src/hvbattle/hv_battle_action_manager.py:845-871 | a turn's baseline confirms itself exactly when its monitor already shows a normal response with log mutations, which a freshly armed one never does |
| ReceiptEvidence.TransitionNeverConfirmsItself | src/hvbattle/hv_battle_action_manager.py:882-926 | a transition's baseline never confirms itself |
| ReceiptEvidence.TurnEvidenceIsOneDispatch | src/hvbattle/hv_battle_action_manager.py:845-871 | turn evidence always comes from the same document and a single dispatch |
| ReceiptEvidence.TurnConfirmsExactlyWhen | src/hvbattle/hv_battle_action_manager.py:845-871 | a turn is confirmed exactly by a normal response in the same document that shows in the log or as a new completion, and what the evidence says is so |
| ReceiptEvidence.TransitionConfirmsExactlyWhen | src/hvbattle/hv_battle_action_manager.py:882-926 | a transition is confirmed exactly by a challenge or a completion that appears, or by a round that moved on an actionable page that is ready or, for a first round on the old page, shows another log |
| ReceiptEvidence.DuplicateForbidsRecovery | src/hvbattle/contracts.py:296-351 | evidence frozen from a monitor with a second dispatch permits no reload |
| ReceiptEvidence.IncidentsAreDisjoint | src/hvbattle/contracts.py:296-344 | the two incidents that permit a reload never coincide |
| ReceiptEvidence.DuplicateIsRetained | src/hvbattle/hv_battle_action_manager.py:1767-1776 | once a probe saw a second dispatch the retained monitor shows at least as many, whatever navigation hides later |
| ReceiptEvidence.StalledExactlyWhen | src/hvbattle/contracts.py:328-344 | frozen evidence reads as one stalled request exactly for one old pending request on an unchanged, known document without a dialog |
| ReceiptEvidence.FailureExactlyWhen | src/hvbattle/contracts.py:296-326 | frozen evidence reads as a communication failure exactly on known documents, behind that dialog, with no dispatch, one unanswered, or one that failed with status zero |
| SubmittedAction.ObserveMonitor | src/hvbattle/hv_battle_action_manager.py:970-978 | a single send is recorded at most once and never after a resolution, and nothing else is |
| SubmittedAction.JudgeTurn | src/hvbattle/hv_battle_action_manager.py:1489-1544 | what one in-deadline read of a turn does: receipt or reconciliation, give up, or go on; exactly which, while every write succeeds |
| SubmittedAction.JudgeTransition | src/hvbattle/hv_battle_action_manager.py:1766-1814 | the same for a transition, never with a second dispatch seen |
| SubmittedAction.MissedRound | src/hvbattle/hv_battle_action_manager.py:1470-1488 | a round without a read in time teaches the call nothing; which error ends the loop, and which makes the cleanup unsafe |
| SubmittedAction.TurnRound | src/hvbattle/hv_battle_action_manager.py:1470-1547 | one round of a turn's loop ends exactly as its probe, its deadline checks and its evidence say |
| SubmittedAction.TransitionRound | src/hvbattle/hv_battle_action_manager.py:1744-1817 | the same for a transition |
| SubmittedAction.PollTurn | src/hvbattle/hv_battle_action_manager.py:1470-1547 | the loop knows exactly what its in-deadline reads showed, confirms only on evidence accepted in time, and while every write succeeds ends in exactly the first round that does not leave it waiting, the way that round says |
| SubmittedAction.PollTransition | src/hvbattle/hv_battle_action_manager.py:1744-1817 | the same for a transition |
| SubmittedAction.ProbeOnceMore | src/hvbattle/hv_battle_action_manager.py:1549-1574 | a late or failed final probe changes nothing that the call knows of the page; which ones forbid the cleanup |
| SubmittedAction.OnException | src/hvbattle/hv_battle_action_manager.py:1642-1649 | an intent that nothing resolved becomes an unknown outcome; a resolved one stays as it is |
| SubmittedAction.ElementActionManager.Submit | src/hvbattle/hv_battle_action_manager.py:1447-1468 | one click at most, issued only when the written trace is exactly the intent, and with a healthy bus exactly when the observation begins; otherwise the intent is resolved as not submitted |
| SubmittedAction.ElementActionManager.ConcludeTurn | src/hvbattle/hv_battle_action_manager.py:1549-1641 | with a healthy bus, final reconciliation exactly on evidence accepted in time, a plain exception exactly when the final probe is lost or cancelled, and otherwise the outcome-unknown error with exactly its frozen evidence; one resolution either way |
| SubmittedAction.ElementActionManager.ConcludeTransition | src/hvbattle/hv_battle_action_manager.py:1818-1907 | the same for a transition, never accepting a second dispatch |
| SubmittedAction.ElementActionManager.AttemptTurn | src/hvbattle/hv_battle_action_manager.py:1398-1649 | a turn without its finally block: with a healthy bus it returns exactly when a receipt is accepted, ends in the outcome-unknown error exactly when it clicked, nothing was accepted and no exception came first, and says whether the page may still be touched |
| SubmittedAction.ElementActionManager.AttemptTransition | src/hvbattle/hv_battle_action_manager.py:1676-1915 | the same for a transition |
| SubmittedAction.ElementActionManager.ClickAndWaitLog | src/hvbattle/hv_battle_action_manager.py:1398-1658 | at most one click and only after the intent; a normal return is backed by an in-deadline probe, always so on a freshly armed baseline, or by a self-confirming baseline; with a healthy bus it returns exactly when a receipt is accepted in time and the cleanup behind it does not raise, with exactly one resolution on every exit after the intent and a submission event whenever a probe saw a single send; a receipt is on record even when the cleanup raises; lawful trace always; the outcome-unknown error, with exactly its frozen evidence, comes exactly when it clicked, nothing was accepted and no exception came first; the last event written is the receipt, the reconciliation, the unknown outcome or the abort that this calls for |
| SubmittedAction.ElementActionManager.ClickAndWaitTransition | src/hvbattle/hv_battle_action_manager.py:1676-1924 | the same, always backed by an in-deadline probe, and with a retained monitor that shows at most one dispatch; the outcome-unknown error and the last event exactly as for a turn |
| SubmittedAction.ReturnsUnprobed | src/hvbattle/hv_battle_action_manager.py:1578-1604 | without any in-deadline probe behind its click a turn returns exactly on a baseline that confirms itself |
| SubmittedAction.DuplicateIsNeverAccepted | src/hvbattle/hv_battle_action_manager.py:774-788 | with a send count that only grows while visible, a transition that saw more than one dispatch never returned |
| SubmittedAction.DuplicateIsNeverRecovered | src/hvbattle/contracts.py:296-351 | and the evidence it raises keeps that count and forbids a recovery reload |
| ReloadRecovery.EndsStableAt | src/hvbattle/recovery.py:247-262 | a stable window means that each of its readings saw the accepted page's signature |
| ReloadRecovery.BattleRecoveryCoordinator.ObserveDocumentChange | src/hvbattle/recovery.py:173-216 | makes exactly the checks it has to, and the log grows by exactly their readings; the document counts as unchanged exactly when every one of them read the old one in time, as changed exactly when the last one read another, and an exception leaves it exactly when the browser was lost or a rest was cancelled |
| ReloadRecovery.ObservedOnce | src/hvbattle/recovery.py:182-216 | the number of checks is the only one that fits the script |
| ReloadRecovery.BattleRecoveryCoordinator.JudgePage | src/hvbattle/recovery.py:247-295 | a page is taken exactly when it is eligible, completes the window and is accepted in time, an active one with a monster seen alive; the loop waits, or is left by an exception, exactly for the other parses named |
| ReloadRecovery.BattleRecoveryCoordinator.TakeTurn | src/hvbattle/recovery.py:233-305 | a turn waits on, takes its page, or is left by an exception, exactly when the page and the deadline checks say so, and the window counted is one of equal readings |
| ReloadRecovery.BattleRecoveryCoordinator.PollTurns | src/hvbattle/recovery.py:218-305 | the loop ends in the first turn that does not wait, or at the deadline |
| ReloadRecovery.BattleRecoveryCoordinator.WaitForStableState | src/hvbattle/recovery.py:218-305 | makes exactly the turns it has to; accepts exactly the first page that completes a window of equal eligible readings in time, and is left by an exception exactly when its last turn is |
| ReloadRecovery.LoopEndsOnce | src/hvbattle/recovery.py:233-305 | the number of turns is the only one that fits the script |
| ReloadRecovery.TurnsEndOneWay | src/hvbattle/recovery.py:233-305 | no turn both waits, takes its page or raises |
| ReloadRecovery.BattleRecoveryCoordinator.SettleAndVerify | src/hvbattle/recovery.py:401-467 | accepted exactly when such a page settled, the clearing met it and an equal final reading came in time; an exception exactly when the loop, the clearing or the final reading raises; the log behind the turns is exactly what was done |
| ReloadRecovery.BattleRecoveryCoordinator.ReloadAndSettle | src/hvbattle/recovery.py:375-467 | one reload; a failed one accepts nothing and reads nothing more, and behind a successful one the script alone decides the verdict |
| ReloadRecovery.BattleRecoveryCoordinator.ObserveAndSettle | src/hvbattle/recovery.py:355-467 | what the observation says, and behind a changed page or the reload exactly what the script makes of it |
| ReloadRecovery.BattleRecoveryCoordinator.Finish | src/hvbattle/recovery.py:415-467 | accepted exactly when the clearing met the stable page, and an equal final reading and every deadline check came in time; an exception exactly when the browser is lost; the parser is reset exactly behind a verified page of a battle that is not complete |
| ReloadRecovery.BattleRecoveryCoordinator.Recover | src/hvbattle/recovery.py:307-467 | the script alone decides how many checks and turns are made, whether the one reload happens, and the verdict: the reload exactly when parameters and evidence permit it and every initial check, one when a request is stalled, read the old document in time; acceptance exactly for a page that settled and was verified; an exception exactly where one is raised; the log is exactly what the page answered |
| ReloadRecovery.RecoverUnknownAction | src/hvbattle/session.py:498-545 | accepted exactly when the recovery is, which the script decides, and the bus takes its reconciliation; then the unknown outcome's trace is extended by it and stays lawful; any other recovery is reported as it ended and writes nothing; at most one reload |
| Runner.RecoveriesAreSeparated | src/hvbattle/runner.py:447-503 | between two recoveries of a run lies a confirmed turn, a confirmed floor or a reset |
| Runner.SpentMeans | src/hvbattle/runner.py:447-503 | an unspent budget after a recovery was refilled by a receipt or a reset in between |
| Runner.CompletionIsFinal | src/hvbattle/runner.py:124-145 | after a confirmed acknowledgement every step returns the completion and none acknowledges again, until a reset |
| Runner.BattleRunner.AcknowledgeCompletion | src/hvbattle/runner.py:505-529 | completes the battle exactly when the next acknowledgement is answered without an error, and records it as confirmed exactly then |
| Runner.BattleRunner.ResolvePonychart | src/hvbattle/runner.py:605-620 | the page may be used exactly when no challenge is present; a solved or expired one is the step's progress |
| Runner.BattleRunner.CompleteUnlessPaused | src/hvbattle/runner.py:218-222 | a complete battle is acknowledged exactly when the runner is not paused |
| Runner.BattleRunner.EnsurePresenceInitialized | src/hvbattle/runner.py:304-331 | opens a battle, finds none or completes one for exactly the answers that say so; at most one acknowledgement, the budget untouched |
| Runner.BattleRunner.InspectPresence | src/hvbattle/runner.py:311-331 | what the presence, the realm and the second service decide, answer by answer |
| Runner.BattleRunner.ReconcileUnknownAction | src/hvbattle/runner.py:447-503 | asks for a recovery exactly on eligible evidence, in a known realm, with an unspent budget, and reconciles exactly when it is confirmed; a lost browser is raised, anything else ends in exhaustion or an interruption |
| Runner.BattleRunner.ProbePendingReadiness | src/hvbattle/runner.py:390-411 | a phase is returned exactly when the probe started and was answered before the expiry; a late one is refused as the readiness error, and no probe starts at or after the expiry |
| Runner.BattleRunner.PrepareTurn | src/hvbattle/runner.py:190-204 | the page is used exactly when nothing hinders the runner and it was read inside the window; an open window keeps its expiry, a new one lasts the whole timeout |
| Runner.BattleRunner.DeferStateNotReady | src/hvbattle/runner.py:413-435 | waits exactly while the open window lasts |
| Runner.BattleRunner.ConfirmTransition | src/hvbattle/runner.py:223-239 | an absent page completes exactly on observed completion, not paused, with the acknowledgement confirmed; it waits exactly inside the open window, and lapses into the missing-evidence error |
| Runner.BattleRunner.GoNextFloor | src/hvbattle/runner.py:240-250 | the next floor is confirmed exactly when the runner is not paused and the session says so |
| Runner.BattleRunner.TakeTurn | src/hvbattle/runner.py:256-279 | the strategy is asked exactly when nothing is paused and it has started; the result is exactly its decision |
| Runner.BattleRunner.EnsureStrategyInitialized | src/hvbattle/runner.py:333-363 | goes on exactly when the strategy has started or starts now; a failed start is remembered and raised again without asking the strategy |
| Runner.BattleRunner.OnePass | src/hvbattle/runner.py:188-280 | one pass ends and leaves the fields exactly as `RunnerScript.Passing` says; it keeps the agreement of fields and history, and what it returns was earned by an answer of this pass and fits the phase that was read inside the window |
| Runner.BattleRunner.Step | src/hvbattle/runner.py:124-145 | every step ends exactly as `RunnerScript.Stepping` says, result, error code and fields, and so as `RunnerResults.StepEndsExactlyAs` reads it off the answers; it keeps both promises over the whole history; after completion it returns the cached result and asks the environment nothing |
| Runner.BattleRunner.ResetForNextBattle | src/hvbattle/runner.py:160-180 | refused exactly without a confirmed completion; otherwise every field is as in a new runner |
| Runner.BattleRunner.Obey | src/hvbattle/runner.py:124-180 | one step or reset: what its caller sees of it, and the fields behind it |
| Runner.RunCommands | src/hvbattle/runner.py:124-180 | any list of steps and resets on a new runner: one result each, every one that is no error earned by an answer; between two recoveries lies a receipt or a reset, an announced completion repeats until a reset, and of all acknowledgements made, each on record as it was answered, no more are confirmed than one for each reset and one more; the results are exactly those of the functions of the script, command after command |
| Runner.OneConfirmationPerReset | src/hvbattle/runner.py:124-180 | no history that keeps completion final records more confirmed acknowledgements than resets, and one more for a cached completion |
| Runner.CompletionRepeats | src/hvbattle/runner.py:124-145 | an announced completion is what every later command returns, until a reset |
| Runner.SeenKeepsTheBudget | src/hvbattle/runner.py:447-503 | the recovery budget can be audited from the results alone |
| RunnerResults.StepEndsExactlyAs | src/hvbattle/runner.py:124-145 | a step ends in a result exactly when the answers say so: those to the look for a battle if none is under way and none opens, and otherwise those of its last look at the page, behind the challenges that were over by then |
| RunnerResults.PresenceExactlyWhen | src/hvbattle/runner.py:304-331 | no battle, a completion, a pause, a PonyChart outcome or an error of the look for a battle, each exactly on its answers |
| RunnerResults.EndsExactlyWhen | src/hvbattle/runner.py:188-302 | how the last pass ends the step, result by result and failure by failure, the recovery of an unknown outcome included |
| RunnerResults.LookingIsItsLastPass | src/hvbattle/runner.py:188-217 | the loop is its last pass, behind exactly as many challenges as were over when the runner looked again |
| RunnerResults.DecidesExactlyWhen | src/hvbattle/runner.py:256-279 | a turn is confirmed, left to policy or stopped exactly on an active page read in time, with no challenge, no pause, a strategy that has started, and that decision |
| RunnerResults.FloorExactlyWhen | src/hvbattle/runner.py:240-250 | the next floor is confirmed exactly on a page that shows its control, read in time, with no challenge, no pause and a positive answer |
| RunnerResults.CompletesExactlyWhen | src/hvbattle/runner.py:218-230 | a battle completes exactly on a page that is complete, or gone with its completion seen, not paused, with the acknowledgement confirmed |
| RunnerResults.WaitsExactlyWhen | src/hvbattle/runner.py:203-204 | the step waits for readiness exactly on a page read in time that is not ready, while the window lasts |
| RunnerResults.ConfirmingExactlyWhen | src/hvbattle/runner.py:223-239 | and for a transition exactly on a page that is gone without its completion, while the window lasts |
| RunnerResults.PausesExactlyWhen | src/hvbattle/runner.py:188-259 | a pause is returned exactly where one is read, before the window opens or where a ready page would be acted on |
| RunnerResults.ServesExactlyWhen | src/hvbattle/runner.py:605-620 | a PonyChart outcome is the step's progress exactly where the service gives it |
| RunnerResults.ThrowsExactlyWhen | src/hvbattle/runner.py:188-302 | a pass fails exactly with the failure of the answers it comes from |
| RunnerResults.WaitingKeepsTheWindow | src/hvbattle/runner.py:413-435 | a step that waits leaves the window it waited in, so the next one opens no new window |
| Framing.ParseOfFrames | src/hvbattle/control_panel.py:76-80 | reading back any list of encoded messages yields each once and in order, and leaves what follows |
| Framing.FramesOfParse | src/hvbattle/control_panel.py:126-148 | any stream is the frames of the messages read from it and a rest without a whole frame |
| Framing.ParseInPieces | src/hvbattle/control_panel.py:871-890 | reading a stream in pieces gives the same messages and rest as reading it whole, for every split |
| Framing.PrefixYieldsPrefix | src/hvbattle/control_panel.py:871-890 | any prefix of what a sender wrote yields a prefix of its messages and never looks oversized |
| Framing.Channel.ReceiveExact | src/hvbattle/_ponychart_workers.py:287-316 | exactly the next bytes, however they arrive, and exactly when they arrive in time before the end of the stream; otherwise exactly what arrived is gone |
| Framing.EnoughArrives | src/hvbattle/_ponychart_workers.py:287-316 | bytes that were sent and are offered before the deadline are read, however the waits split them and however often they block |
| Framing.Channel.ReceiveFrame | src/hvbattle/_ponychart_workers.py:343-360 | the first whole frame of the stream and nothing beyond it, exactly when its header and its payload arrive in time; its size limit error exactly for a header that exceeds the limit; the end of the stream exactly when it comes inside the frame; the limit, here 64 KiB (line 49), is a parameter |
| Framing.Channel.ReceiveFrames | src/hvbattle/_ponychart_workers.py:343-360 | repeated receives read the stream's messages in order, exactly as many as arrive in time |
| Framing.PanelEndpoint.QueueMessage | src/hvbattle/control_panel.py:834-835 | queues the frame exactly when the payload is not too large |
| Framing.PanelEndpoint.FlushMessages | src/hvbattle/control_panel.py:837-845 | for every split of writes exactly as many bytes are sent as they take, in order, and the peer counts as gone exactly when a write says so while bytes are pending |
| Framing.EnoughWritesFlush | src/hvbattle/control_panel.py:837-845 | writes that may take enough between them empty the buffer, however they are split |
| Framing.PanelEndpoint.ReadChunks | src/hvbattle/control_panel.py:872-879 | for every split of reads the stream grows by exactly the chunks before the first empty one, which closes it; handled requests plus those still buffered stay its messages |
| Framing.PanelEndpoint.DispatchFrame | src/hvbattle/control_panel.py:847-869 | one request handled once, with its one reply queued in order; refused only when it has no reply that fits a frame, and then nothing is queued |
| Framing.PanelEndpoint.DrainMessages | src/hvbattle/control_panel.py:871-890 | the stream grows by exactly the chunks read; afterwards the handled requests are exactly those of the stream so far and the buffer holds less than a frame, or the first frame that is too large, or the last request has no reply |
| Framing.PanelEndpoint.HandleFrames | src/hvbattle/control_panel.py:881-890 | every whole buffered frame is handled once and in order |

## Left out

- Browser, DOM and JavaScript: a page read is any value of the parsed record; the one thing known of a freshly armed monitor is that it has seen no request.
- `_click_and_reconcile_battle_exit`: the final exit's lifecycle wait and its polling loop; its audit trail is the one modelled here.
- PonyChart submission, network tracking and lifecycle functions other than the publication and reservation blocks: they are callers of the owner and the store.
- Clocks and sockets: a deadline check is the environment's choice and time need not be monotone; TLS, retries and `send_async` are not modelled.
- Process termination: one step that proves the worker's end or fails; supervisors and signals are not modelled.
- Retention and store process owners: they repeat the ownership protocol with single workers.
- Payload type checks, JSON syntax, log messages and numeric validation of timeouts: single branches.
- The root directory's own entry in its parent: a power loss that takes the whole root leaves an empty store, which reads as no pointer.
- Directory fsync that the platform does not support: the durability results are for a file system where it works.
- TLS compatibility: a retry with another context is part of the request that it repeats.
- Inference results: what a worker answers is not modelled, only who owns, leases and reaps it.
- The asyncio start lock: it only removes interleavings that the ownership results already cover.
- OwnershipProtocol.Step: past its deadline check a call may release its lease at any time, and a retirement and a hand-over may happen at any time, more often than the calls of the source make them.
- StoreProtocol.Step: a stretch of reads of one immutable directory is one step, as no step changes that directory.
- JPEG and WebP pixel data: as in the source, only containers and headers are checked.
