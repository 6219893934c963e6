# A verified model of the m2300 recorder software

This project models the parts of the m2300 solid-state recorder's control software that decide what is on a
cartridge and what a reader finds there, and proves properties of them for all inputs and all runs.

The centre is the STANAG 4575 directory of `M23_Stanag.c`: an allocator that appends recordings to a cartridge,
keeps a directory of 128 blocks with four entries each in memory, writes back only two blocks of it at a time in
big-endian order, and rebuilds its whole state from the cartridge after a loss of power.  Around it the project
models the root and node index and the event log of `M23_EventProcessor.c`, the recorder's command state machine and
its control loop, DAC training, threshold detectors, time synchronisation from a 1553 bus, and PCM packet sizing.

## How it is put together

* `Bytes`, `Bits` - byte order, byte swapping, bitwise operators.
* `DirectoryFormat`, `Directory` - the directory block, its 512-byte image, and the file sequence a table stands for.
* `DiskIo`, `NodeFile` - the cartridge's block interface; the node file, its writer and its two searches.
* `Volume` - the file-static state of `M23_Stanag.c` as one value, with an operation for each function.
* `StanagVolume` - the same state as a class with its arrays and cursors; each method, loops included, is proved to
  perform the operation of `Volume` on the whole state.
* `VolumeInvariant`, `Recovery`, `Crash`, `NodeRecovery` - what each operation keeps, what the two block writes of an
  update leave on the cartridge, and what a start-up makes of it.
* `Runs` - every run of the directory's operations, in both configurations, with power lost at rest, inside an update or
  inside an erase; what holds of memory over all of them, whatever updates reach the cartridge.
* `TornErase`, `Backing`, `Tally`, `Careful`, `StaleStart`, `CrashSafety` - what the cartridge holds in these runs, when
  a write-back reaches and how a caller can tell, and what a start-up finds where it did not.
* `Catalogue`, `SessionCatalogue`, `Headers`, `Numbering` - what the directory says about each recording, field by field
  and byte by byte, told from the operations or commands alone; the block headers; the file index.
* `Layout`, `Lookup`, `Space`, `Links` - over every run: where recordings and node files lie, what a search for a time
  finds, the space counted as used, and the chain of the directory blocks.
* `RootQueue`, `RootAnswers`, `RootPublication` - which bytes may be published as file size, on values and as a class
  proved against them; what every call must answer, told from the roots alone; what a whole recording publishes.
* `EventLog`, `EventAdmission`, `EventChannel`, `EventReception`, `EventProcessor` - logging, lookup and draining of
  events; which calls are logged, told from the calls; the writer to the event channel and its receiver; the class that
  holds the ring and the event table.
* `DiskGuard`, `Recorder`, `CommandLaws`, `ControlLoop`, `Controller` - room on the cartridge; the command state machine
  composed with the directory; what its status means; one turn of the control loop; the class whose methods perform
  these steps.
* `NodeTime`, `F15Words` - the figures that time stamps and 1553 messages carry.
* `DacTraining`, `DataConversion`, `F15Time`, `PcmSizing` - as named.

One 512-byte block write is atomic.  Registers, clocks, the FIFO contents and every other answer of the hardware are
parameters, so a theorem about all runs is also one about all answers of the hardware.

## What the code does not do

Some properties one would expect do not hold of the code.  In each case the model keeps the code as it is, and a
theorem states exactly when the property holds, or a lemma gives an input on which it fails.

* The write-back of two blocks leaves older blocks stale when several recordings were closed without an update in
  between (`Recovery.TwoBlockWriteBack`), and their links with them (`Links.LinksAfterWriteBack`).  Nine recordings can
  be lost this way (`Tally.NineRecordingsAreLost`); none when each is published before its stop
  (`Tally.PublishedBeforeStops`).  What the next start counts is in `StaleStart.StaleStartCounts`.
* An update cut off between its two writes can leave a list that is neither the old nor the new one
  (`Recovery.CrashBetweenWritesExactly`, `Careful.TornUpdateMixes`), whose last block links to one that it does not use
  (`Links.StepKeepsCartridgeChain`).  When each recording is published before its stop it leaves the old list
  (`Careful.CarefulTornUpdate`).
* The erase that keeps the TMATS file, cut off, can leave a directory that stands for no list
  (`TornErase.TornEraseHolds`, `Careful.NineRecordingsBecomeSix`).
* The node buffer is cleared up to 938 of its 1000 blocks, so the last block of a node file of 30016 to 31999 entries
  carries what an earlier one left there (`NodeFile.PaddingIsZeroExactly`); its entries are read back all the same.
* A node file without entries is written but not reserved by the next start (`Layout.RestartClearsNodeFile`).
* With 509 files or more, recovery puts the write cursor back to the first data block (`Crash.RecoveredCursor`).
* `sclose` misplaces the cursor when the cartridge is disconnected or the file has 2^31 blocks or more
  (`VolumeInvariant.SCloseCursor`).
* A publication of zero bytes leaves the running block count stale (`VolumeInvariant.UpdateBlocksKeepsInv`), and with
  it the used-block figure (`Space.EmptyPublicationMiscounts`).
* An erase the cartridge does not carry out leaves the old list there (`Backing.EraseNeedsTheCartridge`).
* A single unreadable block behind a recording makes a probing start-up inconsistent
  (`NodeRecovery.ProbingMountKeepsInv`).
* The tag of a search's target loses a carry, and the search then finds another node (`NodeTime.TimeTagExactly`,
  `NodeTime.LostCarryFindsAnotherNode`).
* The search of a node file of at most 31 entries reads hundreds of blocks behind it (`NodeFile.SearchesAgree`).
* The queue of roots is cleared only in part between recordings (`RootQueue.SafeIffClean`,
  `RootQueue.StaleRootIsPublished`), and node slots keep day bits of earlier recordings
  (`RootQueue.NodeTimeIsReceived`).
* Events handed to the writer while the time packet or the FIFO is not ready are lost (`EventLog.RunKeepsDraining`), and
  so are the last ones before the ring's end (`EventLog.LastEventsAreDropped`); across it one is skipped and an old one
  sent again (`EventLog.WrapSkipsAndRepeats`).
* One turn of the control loop can stop twice, and can publish after it has stopped (`ControlLoop.TurnKeepsGood`); the
  second stop takes a running playback from sight (`ControlLoop.TwoStopsHidePlayback`), and so does a Record that is
  refused for lack of room (`CommandLaws.SessionFollows`).
* A record pointer that leaps over the end is not noticed (`DiskGuard.OverrunIsNotNoticed`).
* Thresholds with arithmetic operators report spurious events or divide by zero (`DataConversion.EventsAreEdges`).
* Close tags on both sides of 0xB1E0 are refused, and an invalid second T20 leaves the recorder without a time
  (`F15Time.SyncAcceptedExactly`, `F15Time.JamsExactly`); a T9 in the last second of a day never sets it
  (`F15Words.RoundOfFigures`).
* PCM sizing computes with products that can wrap around (`PcmSizing.UnpackedSizingExactly`), and packed mode drops a
  partly filled last word for some sync lengths (`PcmSizing.PackedWordsHoldTheData`).

## Model

| member | source | states |
|---|---|---|
| `Bytes.SwapIsBigEndian` | M23_Typedefs.h:104-116 | swapping an n-byte integer and then storing its little-endian memory image writes the integer big endian, for every width |
| `Bytes.SwapIsInvolution` | M23_Typedefs.h:104-116 | the byte-swap macros undo themselves on every value of their width |
| `Bytes.BigEndianReads` | M23_Typedefs.h:104-116 | a reader that takes the most significant byte first gets every integer back |
| `DirectoryFormat.PaddedKeeps` | M23_Stanag.c:1689-1709 | a text field survives strncpy unchanged if and only if nothing but NULs follow its first NUL |
| `DirectoryFormat.SwapEntryTwice` | M23_Stanag.c:1686-1710 | swapping a file entry twice restores address, block count, size and time type always, and the whole entry if and only if its text fields are zero padded |
| `DirectoryFormat.SwapBlockTwice` | M23_Stanag.c:1655-1715 | swapping a directory block twice is the identity if and only if the text fields of all four entries are zero padded |
| `DirectoryFormat.BlockImageRoundTrip` | M23_Stanag.h:15-39 | the 512-byte image of a directory block determines every field of the block |
| `DirectoryFormat.LoadsWhatWasStored` | M23_Stanag.c:1026-1064 | a block stored and loaded again has the same header, and the same entry wherever the entry is zero padded |
| `DirectoryFormat.StoredBlockIsBigEndian` | M23_Stanag.c:1663-1710 | on the cartridge every integer of a directory block is big endian (STANAG 4575; section 10.5.2 of IRIG 106-07 Chapter 10) |
| `DirectoryFormat.LoadedHeaderIsBigEndian` | M23_Stanag.c:1655-1715 | the header of a loaded block is what a big-endian reader finds in the first 64 bytes of its sector, field by field |
| `DirectoryFormat.LoadedEntryIsBigEndian` | M23_Stanag.c:1686-1710 | and so is each entry in its 112 bytes, text up to the first NUL |
| `Directory.HeldFilesAreScanned` | M23_Stanag.c:1137-1194 | a table with file k in block k/4, slot k%4, earlier blocks full and later ones empty stands for exactly one file sequence, the one a scan of the blocks finds |
| `Directory.ExtentsAreDisjoint` | M23_Stanag.c:670-673 | ordered extents never share a block, never reach into the directory, and all end before the end of the last file |
| `Directory.ForwardLinksVisitEveryBlock` | M23_Stanag.c:605-617 | a reader that follows forward links from address 1 visits exactly the blocks in use, in order, and stops at the self link; every reverse link leads to a block whose forward link leads back |
| `Directory.InitTableHoldsNothing` | M23_Stanag.c:259-351 | an initialised table holds the empty file list |
| `Directory.TmatsTableHoldsOneFile` | M23_Stanag.c:378-510 | the erase that keeps the TMATS file leaves a linked one-file directory whose file starts at the first data block |
| `DiskIo.Cartridge.Read` | M23_disk_io.c:489-620 | a successful read returns the block at the read pointer and advances it by one; a failed one returns nothing and leaves the pointer |
| `DiskIo.Cartridge.Write` | M23_disk_io.c:382-480 | a write replaces the block at the write pointer, moves no pointer and always reports 512 bytes |
| `NodeFile.FillBuffer` | M23_EventProcessor.c:1519-1534 | for every list that the 512000-byte buffer holds, the copying loop leaves the complete node-file image, padded with what the clearing of 938 blocks left there |
| `NodeFile.PaddingIsZeroExactly` | M23_EventProcessor.c:1519-1534 | the padding is zero whatever the buffer held before, if and only if the image ends within the 938 cleared blocks |
| `NodeFile.PaddingCanBeStale` | M23_EventProcessor.c:572-572 | of the lists that the buffer holds these are all but those of 30016 to 31999 entries |
| `NodeFile.NodeFileRoundTrip` | M23_EventProcessor.c:1519-1546 | reading back the padded 512-byte blocks of a node file gives exactly the nodes that were written, for every list whose length the header can hold |
| `NodeFile.NodeFileLayout` | M23_EventProcessor.c:1519-1534 | a reader of little-endian words finds the name NODEFILE, the count, and in 16 bytes for each node its event, time of day, day and block |
| `NodeFile.FindInMemory` | M23_EventProcessor.c:170-195 | the search of the node list in memory returns the block of SearchBlock for every time; what that is NodeTime.SearchFindsInstant says |
| `NodeFile.SearchFindsLastEarlierNode` | M23_EventProcessor.c:182-193 | on a time-sorted list the search returns the block of the last node strictly before the target, of the first node when none is earlier, and nothing for a target after all nodes |
| `NodeFile.FindOnDisk` | M23_EventProcessor.c:196-288 | the search of a closed file returns the block that SearchBlock gives for the entries found on the cartridge, for every count that the 512000-byte buffer holds |
| `NodeFile.IndexLoads` | M23_EventProcessor.c:210-255 | the on-disk search sees exactly the written entries if every block it touches can be read, and none otherwise |
| `NodeFile.NothingWithoutNodeFile` | M23_EventProcessor.c:205-250 | the on-disk search finds nothing where the remembered block is below 128, cannot be read, or does not begin with NODEFILE |
| `NodeFile.SearchesAgree` | M23_EventProcessor.c:127-293 | for an index whose first node names a block other than 0, the on-disk and the in-memory search agree on every time if and only if every block the on-disk one touches can be read; for at most 31 nodes these are up to 508 blocks more than the node file has, because a byte count is used as a block count |
| `NodeTime.TimeOfStamp` | M2X_time.c:498-517 | a node stamped with the decimal digits of day, hour, minute and second carries the microseconds of that instant, whatever the fraction of its second |
| `NodeTime.SecondsFollowTheOrder` | M2X_time.c:275-304 | of two instants the one with the earlier day, then hour, minute and second has the smaller figure; equal figures are equal instants |
| `NodeTime.TimeTagExactly` | M2X_time.c:275-304 | the tag of a target is its microseconds if and only if adding the fraction to the low word leaves no carry, which is lost |
| `NodeTime.SearchFindsInstant` | M23_EventProcessor.c:127-293 | on nodes stamped in order the search plays from the last node stamped strictly before the target, from the first when none is, and finds nothing when all are - in days, hours, minutes and seconds, for every target whose tag is its time |
| `NodeTime.LostCarryFindsAnotherNode` | M2X_time.c:275-304 | with the carry lost, the target 01:11:34.999999 of day 1 plays from a node at 01:00:00 although one at 01:11:30 is there |
| `StanagVolume.Stanag.SwapStanag` | M23_Stanag.c:1655-1715 | afterwards every block of the swapped copy is the swapped block of the table |
| `StanagVolume.Stanag.FileStoreFileTable` | M23_Stanag.c:1026-1084 | writes the previous and the current block, in this order, and no other block; -1 and no change when the cartridge is not connected |
| `StanagVolume.Stanag.UpdateStanag` | M23_Stanag.c:2036-2094 | performs Volume.Updated on the whole state, reads the byte count again when closing on a multiple of 32768, and returns the block count as an int or -1 |
| `StanagVolume.Stanag.UpdateStanagBlocks` | M23_Stanag.c:143-213 | performs Volume.UpdatedBlocks on the whole state |
| `StanagVolume.Stanag.UpdateStanagAndBlocks` | M23_Stanag.c:107-131 | performs Volume.UpdatedAll on the whole state |
| `StanagVolume.Stanag.SOpen` | M23_Stanag.c:573-702 | performs Volume.Opened on the whole state, returns -1 and changes nothing when a file is open, and seeks the record pointer to the write cursor |
| `StanagVolume.Stanag.SClose` | M23_Stanag.c:838-893 | performs Volume.SClosed on the whole state |
| `StanagVolume.Stanag.EmergencyClose` | M23_Stanag.c:909-951 | performs Volume.EmergencyClosed on the whole state |
| `StanagVolume.Stanag.WriteNodesFile` | M23_EventProcessor.c:1497-1552 | performs Volume.NodesWritten on the whole state, with or without a cartridge, for every list that the buffer holds |
| `StanagVolume.Stanag.SCloseNodesFile` | M23_Stanag.c:798-823 | moves the write cursor by the padded size of the node file and clears the byte count |
| `StanagVolume.Stanag.SErase` | M23_Stanag.c:983-1019 | performs Volume.Erased or Volume.TmatsErased on the whole state |
| `StanagVolume.Stanag.InitializeStanag` | M23_Stanag.c:259-351 | the loop that numbers the links on from block to block makes exactly Directory.InitTable |
| `StanagVolume.Stanag.InitializeStanagErase` | M23_Stanag.c:378-528 | makes exactly Directory.TmatsTable, sets the cursor behind the kept file and stores all 128 blocks |
| `StanagVolume.Stanag.FileRetrieveFileTable` | M23_Stanag.c:1090-1289 | loads, swaps, counts and probes as Volume.Mounted says, and fails exactly where Volume.Mounted falls back to an empty table |
| `StanagVolume.Stanag.SInit` | M23_Stanag.c:56-95 | performs Volume.Mounted on the whole state |
| `StanagVolume.Stanag.GetNumberOfFiles` | M23_Stanag.c:2272-2290 | returns the length of the file sequence |
| `StanagVolume.Stanag.GetFileEntry` | M23_Stanag.c:2292-2321 | succeeds exactly for 1 to the number of files, with that file of the sequence |
| `StanagVolume.Stanag.GetBlockFromFileNumber` | M23_Stanag.c:1510-1527 | succeeds exactly for 1 to the number of files, with the start address of that file of the sequence |
| `StanagVolume.Stanag.FindFirstInLastFile` | M23_Stanag.c:1565-1589 | returns the start address of the last file of the sequence, 129 when there is none |
| `StanagVolume.Stanag.SDisk` | M23_Stanag.c:2111-2127 | reports cursor plus running block count as used, and available blocks less 129 as total, both modulo 2^32 |
| `VolumeInvariant.OpenKeepsInv` | M23_Stanag.c:573-702 | sopen appends exactly one entry, which starts at the write cursor; slots, extents and order hold for every one of the 512; the allocator invariant, whose bound of 511 files is the model's own, if and only if it was not the 512th |
| `VolumeInvariant.UpdateKeepsInv` | M23_Stanag.c:2036-2094 | an update changes only size, block count and close time of the open entry, written or not |
| `VolumeInvariant.UpdateBlocksKeepsInv` | M23_Stanag.c:174-210 | publishing offset + length keeps the invariant; the running block count equals that of the open entry if and only if the sum is nonzero or the running count is 0 |
| `VolumeInvariant.UpdateAllKeepsInv` | M23_Stanag.c:107-131 | publishing the recorded block count keeps the invariant, and both block counts agree afterwards |
| `VolumeInvariant.EmergencyCloseKeepsInv` | M23_Stanag.c:909-951 | Emergency_Close keeps every entry and moves the cursor exactly behind the file |
| `VolumeInvariant.SCloseKeepsInv` | M23_Stanag.c:838-893 | sclose keeps the invariant when the directory could be written and the block count fits an int |
| `VolumeInvariant.SCloseCursor` | M23_Stanag.c:879-886 | sclose leaves the cursor behind the file if and only if the cartridge is connected and the block count is below 2^31 |
| `VolumeInvariant.NodesKeepInv` | M23_EventProcessor.c:1497-1552 | a node file moves the cursor past itself, touches no entry and no block below the old cursor, and can be read back there; without a cartridge it changes no sector |
| `VolumeInvariant.EraseKeepsInv` | M23_Stanag.c:983-1008 | serase leaves an empty directory with the cursor at the first data block |
| `VolumeInvariant.TmatsEraseKeepsInv` | M23_Stanag.c:1009-1015 | the TMATS-keeping erase leaves exactly the first file at block 129 and the cursor behind it |
| `Recovery.TwoBlockWriteBack` | M23_Stanag.c:1036-1064 | writing only the blocks before and at the current one makes the cartridge hold the whole list if and only if the first outdated entry lies in one of these two blocks or later |
| `Recovery.CrashBetweenWrites` | M23_Stanag.c:1038-1058 | under the same condition, after the first of the two writes the cartridge lists the new entries in the blocks before the current one and the old entries in the current one |
| `Recovery.CrashBetweenWritesExactly` | M23_Stanag.c:1038-1058 | a crash between the two writes leaves the old list if and only if that was up to date in every block before the current one, and the new list if and only if both agree in the current one |
| `Recovery.CrashBetweenWritesMixes` | M23_Stanag.c:1038-1058 | four recordings closed unpublished and a fifth whose first update is cut off: the cartridge lists four files, neither the old list nor the new one (Careful.TornUpdateMixes is the run) |
| `Recovery.LoadsDespiteData` | M23_Stanag.c:1116-1124 | recorded data and node files never change the loaded directory |
| `Crash.RecoveredCursor` | M23_Stanag.c:1140-1194 | the recovered cursor is the end of the last file if and only if a directory block is empty (at most 508 files); otherwise it is 129 |
| `Crash.MountRecovers` | M23_Stanag.c:1090-1194 | sinit brings back exactly the file sequence, file number and cursor of the list on the cartridge |
| `Crash.CrashEqualsEmergencyClose` | M23_Stanag.c:909-951 | losing power with a file open and mounting again equals Emergency_Close in file list, file number and cursor if and only if the cartridge holds the current list |
| `Crash.CrashBeforeFirstUpdate` | M23_Stanag.c:573-702 | losing power after sopen and before any update gives the list and file number from before sopen, and the cursor too if and only if it stood right behind the last file (no node file reserved) |
| `Runs.StepKeepsSound` | M23_Stanag.c:573-1289 | every open, update with or without success, close, node file, erase carried out or not, data block and restart keeps the allocator invariant in memory and makes exactly the expected list, whatever earlier updates wrote to the cartridge, in both configurations; a restart is possible exactly where NodeRecovery.StartExactly says |
| `Runs.RunKeepsSound` | M23_Stanag.c:573-1289 | the same over every run |
| `Runs.ExtentsInEveryRun` | M23_Stanag.c:573-1019 | in every state of every run extents are disjoint, in order, at or above block 129 and below the write cursor |
| `TornErase.TornEraseHolds` | M23_Stanag.c:511-517 | after k of the 128 writes of the TMATS-keeping erase the cartridge holds a list if and only if the old one had at most 4k files; it is that of the kept file |
| `TornErase.TornEraseStartup` | M23_Stanag.c:1090-1194 | sinit after such an erase satisfies the allocator invariant if and only if the old list had at most 4k files |
| `TornErase.TornEraseStartupWithNodes` | M23_Stanag.c:1243-1281 | the same where sinit looks for node files, if and only if it can also read the block behind the kept file |
| `TornErase.TornEraseCounts` | M23_Stanag.c:1140-1194 | otherwise sinit counts three files fewer than before after the first write, and one file after any later one, with entries of the old list left in the table |
| `TornErase.NineFilesBecomeSix` | M23_Stanag.c:511-517 | nine files and power lost after the first write: sinit counts six, a state that no list fits (Careful.NineRecordingsBecomeSix is the run) |
| `Backing.WriteBackExactly` | M23_Stanag.c:1036-1064 | an update leaves on the cartridge a list that the one in memory continues if and only if the first outdated entry lies in one of the two blocks written or later |
| `Backing.EraseNeedsTheCartridge` | M23_Stanag.c:1006-1007 | after serase the list on the cartridge is behind the one in memory if and only if it carried out the erase, or listed nothing before |
| `Backing.CutHoldsList` | M23_Stanag.c:511-517 | wherever power is lost, between operations, between the two writes of an update or after k writes of an erase, the cartridge holds exactly the list given, one the allocator could have written |
| `Backing.RestartIsPossible` | M23_Stanag.c:1090-1289 | within 32-bit block addresses a restart there is possible if and only if sinit finds no directory, or can read every block it probes and the list leaves a directory block empty or ends where the search for its end begins |
| `Backing.StepKeepsBacked` | M23_Stanag.c:573-1289 | every step that reaches the cartridge keeps there an earlier state of the list in memory; after an update, a close by sclose, an erase or a restart both lists are equal |
| `Backing.RunKeepsBacked` | M23_Stanag.c:573-1289 | the same over every run, in both configurations |
| `Backing.BlankStart` | M23_Stanag.c:1113-1194 | a blank cartridge, mounted in either configuration, starts such runs: no files, the cursor at block 129 |
| `CrashSafety.CrashWhileStored` | M23_Stanag.c:909-951 | with the current list on the cartridge, losing power and mounting gives the list and file number of Emergency_Close, and its cursor but for what is reserved for a node file |
| `CrashSafety.CrashAfterUpdate` | M23_Stanag.c:2036-2094 | after an update that reached the cartridge and any data recorded since, losing power is no worse than Emergency_Close |
| `Tally.TallyTells` | M23_Stanag.c:1036-1064 | four figures kept from the operations alone tell that the next write-back reaches; where they deny it with the last listed file current, it does not |
| `Tally.ToldRunReaches` | M23_Stanag.c:573-1289 | every run of which the tally says so at each step keeps a list on the cartridge |
| `Tally.PublishedBeforeStops` | M23_Stanag.c:573-1289 | when every recording is stopped with its last publication on the cartridge, every write-back of the run reaches |
| `Tally.NineRecordingsAreLost` | M23_Stanag.c:1036-1064 | from a blank cartridge, eight recordings stopped unpublished and a ninth that publishes: a possible run after which the cartridge holds no list, and the restart that may follow goes on with none of the nine |
| `Careful.TornUpdateLeavesOldList` | M23_Stanag.c:1038-1058 | an update cut off between its two writes leaves exactly the list that was on the cartridge if the listed files reach up to the block of the open one, and another one if they end before that block; both are told from the operations |
| `Careful.CarefulTornUpdate` | M23_Stanag.c:1038-1058 | at every point of a run in which each recording is published before its stop, such an update leaves exactly the list that was on the cartridge before |
| `Careful.TornUpdateMixes` | M23_Stanag.c:1038-1058 | the run of four recordings stopped unpublished, a fifth and its cut-off update goes on with four files, although the cartridge listed none and memory five |
| `Careful.NineRecordingsBecomeSix` | M23_Stanag.c:511-517 | the run of nine published recordings and an erase that keeps the first, cut off after one write, leaves a start-up that counts six |
| `StaleStart.StaleStartCounts` | M23_Stanag.c:1140-1194 | after an update that does not reach, sinit counts the old files if an empty block comes before the two written, all entries on the cartridge if the old list ends inside the block before them, and all files if it ends with that block; only then does the cartridge hold a list |
| `Catalogue.RunIsCatalogued` | M23_Stanag.c:573-2094 | over every run whose steps reach, through restarts, torn updates and torn erases, the lists in memory and on the cartridge show recording by recording the name, creation date and time, start, size and close time that the operations gave: those of the open, then of the last publication |
| `Catalogue.RunShowsMemory` | M23_Stanag.c:573-2094 | in memory the same over every run without a loss of power, whatever updates reach |
| `Catalogue.CardIsOnCartridge` | M23_Stanag.c:1663-1710 | recording k of that list is found, by a reader of big-endian bytes, in entry k%4 of the sector at address 1 + k/4, which gives the number of its entries |
| `Catalogue.BlankCatalogue` | M23_Stanag.c:1113-1194 | a blank cartridge, mounted, starts with an empty catalogue |
| `Catalogue.RecordingComesBack` | M23_Stanag.c:573-1194 | a recording opened, published on the cartridge and stopped has after a loss of power the name, dates, start, size and close time it was given |
| `SessionCatalogue.SessionIsCatalogued` | M23_Controller.c:2318-3071 | the same over every session of commands, the catalogue kept from the commands and their replies: which publications count, and which commands change the directory |
| `SessionCatalogue.StopWritesNodes` | M23_Controller.c:2964-3040 | a stop in the configuration that keeps node files leaves the node list behind the recording, remembers its block under the recording's number, and moves the cursor past it |
| `Headers.RunKeepsHeaded` | M23_Stanag.c:600-640 | over every run whose steps reach, each directory block in use says FORTYtwo, revision 15, 512-byte blocks and the volume name of block 0, in memory and on the cartridge |
| `Headers.StepKeepsMark` | M23_Stanag.c:2036-2094 | the shut-down mark of the current block is set by an update and cleared by the next open, and by nothing else while power is on |
| `Headers.FreshTable` | M23_Stanag.c:259-351 | a table made from scratch: empty, nameless blocks that link to themselves, but for the last one, which links to the block before |
| `Headers.EmptiedTable` | M23_Stanag.c:378-510 | the erase that keeps the first file leaves every other block empty and nameless like those |
| `Headers.CloseBlanksTheNextName` | M23_Stanag.c:850-880 | a close changes nothing in the table but the name behind the last entry, and that only if the entry does not fill its block |
| `Numbering.RunKeepsNumbered` | M23_Stanag.c:880-945 | over every run whose closes count up and whose steps reach, the file index is the number of closed recordings, through every restart |
| `Layout.StepKeepsLaid` | M23_Stanag.c:573-1289 | every step keeps each recording starting exactly behind what is reserved behind the one before, the cursor behind the last, and each node file intact in its gap |
| `Layout.RunKeepsLaid` | M23_Stanag.c:573-1289 | the same over every run whose restarts find a list, in both configurations |
| `Layout.RunKeepsTight` | M23_Stanag.c:670-673 | without node files, in every such run each recording starts where the one before ended and the cursor stands at the end of the last |
| `Layout.NodeFileStays` | M23_EventProcessor.c:1497-1552 | a node file with entries stays on the cartridge as it was written, over every run and its restarts, while its recording is listed unchanged and nothing is erased |
| `Layout.RestartClearsNodeFile` | M23_Stanag.c:1270-1280 | a restart puts the cursor behind the node file of the last recording if and only if that has entries; one without entries is where the next recording starts |
| `Lookup.StepRemembers` | M23_Stanag.c:1243-1281 | every step keeps the node list in memory at the address of the node file of each recording that has one, in both configurations |
| `Lookup.SearchesInEveryRun` | M23_EventProcessor.c:127-293 | over every run and its restarts, looking up a time in a recording that has its node file gives what the list in memory gave when it was stopped, if and only if every block that the search touches can be read |
| `Lookup.BlankStartsLaid` | M23_Stanag.c:1113-1194 | a blank cartridge, mounted, starts such runs |
| `Space.RunCountsItsBytes` | M23_Stanag.c:2111-2127 | over every run whose publications carry bytes, the running block count is the size of the open entry in whole blocks and its block count, and the used-block figure is the end of that entry, or the cursor, and stays so at the close |
| `Space.EmptyPublicationMiscounts` | M23_Stanag.c:174-210 | a publication keeps the running count that of the entry if and only if it carries bytes or nothing was counted yet |
| `Links.OpenLinks` | M23_Stanag.c:605-617 | sopen extends the chain in memory to its block, whatever the block before it said |
| `Links.LinksAfterWriteBack` | M23_Stanag.c:1036-1064 | after a write-back the chain on the cartridge reaches the current block if and only if the first block that was not written links forward already |
| `Links.StepKeepsChain` | M23_Stanag.c:601-640 | every step keeps the chain in memory, whatever updates write; a restart if what it loads is chained |
| `Links.RunKeepsChain` | M23_Stanag.c:601-640 | over every such run the blocks in use are doubly linked in memory from address 1, and while a file is open a reader visits exactly them |
| `Links.StepKeepsCartridgeChain` | M23_Stanag.c:1036-1064 | every step that reaches keeps the chain on the cartridge; it still ends in a self link after it if and only if it was not an update cut off when it starts a directory block, and after every write-back |
| `Links.RunKeepsCartridgeChain` | M23_Stanag.c:1036-1064 | over every run whose steps reach the cartridge is chained, and so is what every restart loads |
| `Links.CartridgeVisitsInEveryRun` | M23_Stanag.c:1036-1064 | and a reader of the cartridge visits every block of its list in order and stops at the last, if no update was cut off that starts a block |
| `Links.CarefulRunsReach` | M23_Stanag.c:573-1289 | when every recording is published before its stop, every step of the run reaches, with list and links |
| `NodeRecovery.ProbeResult` | M23_Stanag.c:1245-1268 | the probing loop finds exactly the node files behind listed recordings, and the count of the last one |
| `NodeRecovery.MountRestores` | M23_Stanag.c:1090-1281 | in either configuration, with every block it looks at readable, sinit restores the list on the cartridge, also an empty one, and reserves the last node file found |
| `NodeRecovery.CursorClearsNodeFiles` | M23_Stanag.c:1270-1280 | the recovered cursor never falls into a recording or a node file of the list |
| `NodeRecovery.ProbingMountKeepsInv` | M23_Stanag.c:1263-1266 | sinit with the probe keeps the invariant if and only if every probed block can be read |
| `NodeRecovery.FaultsThatMatter` | M23_Stanag.c:1109-1132 | one unreadable block among the 128 of the directory and sinit starts with no files; no other fault matters to it where it does not look for node files |
| `NodeRecovery.StartExactly` | M23_Stanag.c:56-95 | sinit gives a state of the allocator if and only if the directory is unreadable, has no magic number, or holds a plausible list that leaves a block empty or ends where the search for its end begins; where a probe fails, if and only if the first block is empty; and then with exactly that list |
| `RootQueue.SafeIffClean` | M23_EventProcessor.c:1404-1457 | in every run of a recording each report names a received root whose block is below the record pointer, if and only if the clearing left no publishable entry below the queue index |
| `RootQueue.ShortQueueIsClean` | M23_EventProcessor.c:55-77 | a recording after one that left at most 180 roots waiting, or a full queue, starts clean |
| `RootQueue.WaitingRootsPileUp` | M23_EventProcessor.c:1404-1418 | roots at successive blocks stay in the queue while the record pointer stands at the write cursor |
| `RootQueue.StaleRootIsPublished` | M23_EventProcessor.c:55-77 | after 181 to 239 such roots the first root of the next recording makes the last one of the earlier recording be reported: only 180 of 240 entries are cleared and the index is not reset |
| `RootQueue.ReportedOffsetsIncrease` | M23_EventProcessor.c:1347-1485 | in a recording that starts clean and whose roots come at increasing positions, the reported offsets strictly increase through every wrap and every clearing |
| `RootQueue.NodeTimeIsReceived` | M23_EventProcessor.c:1390-1397 | a node carries the received time if and only if its slot holds no other day bits: the upper word is or-ed onto what the slot held |
| `RootQueue.SlotReuseShiftsTheDay` | M23_EventProcessor.c:1397-1397 | a slot used on day 1 and again on day 2 is indexed as day 3 |
| `RootAnswers.RootCarries` | M23_EventProcessor.c:1377-1418 | the words of a root carry its byte, length and time stamp: it lies in the block of its byte, and its node has that block, time of day and, in an unused slot, day |
| `RootAnswers.AnswersExactly` | M23_EventProcessor.c:1347-1457 | over every run of a recording that starts clean, each call reports its own root when that lies below the record pointer; else the most recent of the roots that wait and lie below it, at a block other than 0; and is silent if and only if there is none.  The roots that wait are those received since the last report, or since the 240 slots were full |
| `RootAnswers.SilentOnlyWithNothingRipe` | M23_EventProcessor.c:1404-1457 | while nothing was reported and the slots suffice, all roots of the recording wait, so that no call is silent while one of them can be reported |
| `RootQueue.NodeIndex.GetRootUpdateNodes` | M23_EventProcessor.c:1347-1485 | one call performs Step on the queue, reports what Answer says, and appends exactly one node per root |
| `RootQueue.NodeIndex.AddMoreNodeEntries` | M23_EventProcessor.c:106-110 | growing the node list keeps every entry |
| `RootQueue.NodeIndex.ClearRecordNodes` | M23_EventProcessor.c:73-77 | clears 180 queue entries and the node count, and leaves the queue index |
| `RootPublication.RecordingShows` | M23_Control.c:389-412 | while a recording is open every update that the control loop makes of the reported roots can be made, and its entry shows the last one |
| `RootPublication.RecordingGrows` | M23_EventProcessor.c:1404-1457 | in a recording that starts clean and whose roots come in order, the offsets published into its entry strictly increase, the sizes shown never decrease, and each is that of a root received whose block lies below the record pointer |
| `EventLog.InfoDecodes` | M23_EventProcessor.c:910-924 | the packed word decodes to the event number and to the occurrence modulo 65536, even where the count runs into the recording flag |
| `EventLog.RunKeepsGood` | M23_EventProcessor.c:893-935 | in every run that logs at most 4095 events the log holds exactly the admitted events, in order, each with its own occurrence number |
| `EventLog.LookupFindsOccurrence` | M23_EventProcessor.c:1565-1586 | occurrence k of an event finds the time stored when it was logged for the k-th time; any other k finds nothing |
| `EventLog.OccurrencesAreUnique` | M23_EventProcessor.c:1578-1578 | no two log entries carry the same event and occurrence |
| `EventLog.RunKeepsPriorities` | M23_EventProcessor.c:433-539 | over every run an event's limit is used up by exactly the entries its priority charges, and events its priority bars are never logged |
| `EventAdmission.LogsWhatIsDue` | M23_EventProcessor.c:433-539 | over every run a call is logged if and only if it is due, told from the calls and the described priority and limit: priority 1 always; 2 in a recording, and outside for the first calls up to the limit; 3 in a recording; 4 for the first calls up to the limit; 5 for the first in a recording; with events enabled, after a record command, or numbered on the bus |
| `EventAdmission.LogIsWhatIsDue` | M23_EventProcessor.c:840-1109 | while at most 4095 calls are due the log is the list of these, each entry telling its event, its occurrence, its stamp and, below 65536 occurrences, whether it was in a recording |
| `EventAdmission.FlagExactly` | M23_EventProcessor.c:910-924 | bit 28 is set if and only if the event was in a recording or bit 16 of its count is set |
| `EventLog.RunKeepsDraining` | M23_EventProcessor.c:1604-1673 | while at most 4094 events were logged start + pending = count; what was sent are exactly the events whose turn could deliver, in log order, each once: all handed out if and only if every turn could deliver |
| `EventLog.LastEventsAreDropped` | M23_EventProcessor.c:1604-1675 | 4094 is exact: 4090 events drained, five more logged, and the next turn sends none of the five although it could, and none is pending any more |
| `EventLog.TurnExactly` | M23_EventProcessor.c:1604-1675 | what one turn sends and what it takes to be left, in all four cases, near the end of the ring and away from it |
| `EventLog.WrapSkipsAndRepeats` | M23_EventProcessor.c:1634-1668 | of thirty events logged across the end of the ring the one in its last slot is never sent, and an old one is sent again in its place |
| `EventLog.DrainTakesCeilingOfTwentieths` | M23_EventProcessor.c:1631-1650 | n pending events are gone after ceil(n/20) recording turns and no sooner |
| `EventChannel.PutsCarryTheWords` | M23_EventProcessor.c:717-802 | the chunks carry all words of the range in order, under a single packet-ready |
| `EventChannel.AllChunksSent` | M23_EventProcessor.c:751-820 | everything is written if and only if the FIFO is found empty once per chunk before it is found busy more than 100 times |
| `EventReception.ChunksAnnounce` | M23_EventProcessor.c:751-800 | every chunk is preceded by the length of the packet, the number of its events and the channel |
| `EventReception.EveryEventArrives` | M23_EventProcessor.c:704-825 | when the FIFO is found empty in time a receiver that reads the words as CH_10_EVENT lays them out gets every event of the range, in order, in ceil(n/50) chunks |
| `EventProcessor.M23EventProcessor.UpdateEvent` | M23_EventProcessor.c:840-936 | performs Next on the whole log state and says whether the event was logged |
| `EventProcessor.M23EventProcessor.UpdateM1553Event` | M23_EventProcessor.c:950-1043 | performs Next on the whole log state; refused exactly when enabled, numbered and barred |
| `EventProcessor.M23EventProcessor.UpdateRecordEvent` | M23_EventProcessor.c:1061-1109 | performs Next on the whole log state |
| `EventProcessor.M23EventProcessor.GetEventTime` | M23_EventProcessor.c:1565-1586 | returns the time of the first match of Lookup and keeps the two words when there is none |
| `EventProcessor.M23EventProcessor.Turn` | M23_EventProcessor.c:1604-1675 | performs Next on the whole log state and emits the words of exactly the events Emitted names |
| `EventProcessor.M23EventProcessor.WriteEventsToHost` | M23_EventProcessor.c:704-825 | emits the chunks that Written says, for every answer of the FIFO, and terminates |
| `DiskGuard.AcceptsIffRoomReported` | M23_Controller.c:2015-2028 | RecordFile accepts on space if and only if Media reports a nonzero remainder, if and only if more than the reserve is left; what it reports is then all that is unused |
| `DiskGuard.NeverOverruns` | M23_Control.c:211-225 | from every accepted start the record pointer stays strictly below the usable block count in every run if and only if the hardware writes at most 131072 blocks between two turns |
| `DiskGuard.OverrunIsNotNoticed` | M23_Control.c:215-215 | a pointer that leapt over the end makes the unsigned difference large again, and the recording goes on |
| `Recorder.CommandRunsItsOps` | M23_Controller.c:2318-2495 | what a command does to the directory is a run of the directory's own operations |
| `Recorder.CommandKeepsGood` | M23_Controller.c:1611-3071 | every command issued when it may be keeps recorder status, recording bits and directory in step |
| `Recorder.SessionKeepsGood` | M23_Controller.c:1587-3071 | over every sequence of commands and losses of power, whatever updates and erases reach the cartridge, a file is open iff the status is RECORD or REC_N_PLAY iff both recording bits are set, and the directory invariant holds |
| `Recorder.SessionIsRun` | M23_Controller.c:1587-3071 | what a session does to the directory is one run of directory operations, so that every theorem about runs is one about sessions |
| `Recorder.SessionKeepsBacked` | M23_Controller.c:1587-3071 | over every session whose directory operations reach, the cartridge holds an earlier state of the list in memory |
| `Recorder.RecordAddsOneEntry` | M23_Controller.c:2348-2495 | a successful Record appends exactly the new entry; a failed one leaves the directory alone |
| `Recorder.RecordSucceeds` | M23_Controller.c:2361-2446 | Record succeeds if and only if the recorder is idle, in error or playing, a setup and a cartridge are there, and Media would report room |
| `Recorder.RecordingStaysOnCartridge` | M23_Controller.c:2399-2457 | every accepted recording starts at the write cursor and stays below the usable block count while the hardware writes at most the reserve between two turns |
| `Recorder.SessionCountsRecordings` | M23_Controller.c:2318-2495 | between erases and losses of power the directory grows by exactly the recordings started |
| `CommandLaws.SessionFollows` | M23_Controller.c:1587-3071 | over every session the status and both recording bits are those of three machines driven by the commands and their replies alone: recording from a Record carried out to a Stop, playback from its start to its end - which no stop and no Record carried out brings - and a task from its acceptance to its end |
| `CommandLaws.SessionReplies` | M23_Controller.c:1611-3071 | and the reply to every command is told from these machines, the setup, the cartridge and the room on it |
| `CommandLaws.PlaybackProtects` | M23_Controller.c:1755-1898 | while a started playback has not ended the status shows it, and erase, test and declassify are refused and change nothing |
| `Recorder.PlaybackStartNeedsItsStates` | M23_Utilities.c:119-154 | starting playback keeps the coupling if and only if the status is not REC_N_PLAY |
| `Recorder.StopNeedsARecording` | M23_Controller.c:2964-3071 | Stop, with whatever last root it finds, writes within the directory and keeps recorder and directory in step if and only if the recorder is recording |
| `ControlLoop.TurnKeepsGood` | M23_Control.c:193-412 | a turn of the control loop, whatever it writes reaches the cartridge or not, keeps recorder and directory in step if and only if it does not stop both for a fault and for a full cartridge, and does not publish after it has stopped |
| `ControlLoop.LatePublicationOverwrites` | M23_Control.c:389-412 | a publication after the stop overwrites the size of the recording just closed, or writes in front of the next block when that recording filled its block |
| `ControlLoop.TurnIsCommands` | M23_Control.c:193-412 | every other turn is the session of a stop, the end of playback and the publication, so that what holds over sessions holds over turns |
| `ControlLoop.TurnsOutOfBounds` | M23_Control.c:193-412 | a turn that stops writes in front of an empty directory block if and only if the recording filled its block and, after the stop, the second stop finds a root to publish or the publication is due |
| `ControlLoop.TwoStopsHidePlayback` | M23_Control.c:193-260 | a turn that stops twice shows IDLE although playback was not ended |
| `Controller.M23Controller.SetRecorderState` | M23_Controller.c:1587-1604 | a status RECORD can only become REC_N_PLAY |
| `Controller.M23Controller.RecordCommand` | M23_Controller.c:2318-2495 | performs Recorded on status, bits and directory, with its reply, and starts the hardware at the write cursor |
| `Controller.M23Controller.StopCommand` | M23_Controller.c:2964-3071 | performs Stopped on status, bits and directory |
| `Controller.M23Controller.StartPlaybackCommand` | M23_Utilities.c:92-185 | performs PlaybackStarted |
| `Controller.M23Controller.StopPlaybackCommand` | M23_Utilities.c:187-229 | performs PlaybackStopped |
| `Controller.M23Controller.EraseCommand` | M23_Controller.c:1873-1898 | performs Erasure, with its reply, whether or not the cartridge carries out the erase |
| `Controller.M23Controller.BuiltInTestCommand` | M23_Controller.c:1611-1639 | performs Tested, with its reply |
| `Controller.M23Controller.DeclassifyCommand` | M23_Controller.c:1755-1787 | performs Declassified, with its reply |
| `Controller.M23Controller.StatusCommand` | M23_Controller.c:2948-2953 | performs Queried: only ERROR and FAIL become IDLE |
| `Controller.M23Controller.MediaCommand` | M23_Controller.c:1996-2037 | reports used blocks and the remainder, 0 when no more than the reserve is left |
| `Controller.M23Controller.RecordingTurn` | M23_Control.c:193-412 | performs Turned on status, bits and directory, for every turn that does not write out of bounds |
| `DacTraining.SearchFindsTheEnds` | M23_Utilities.c:231-304 | after 14 completed probes the search from 0x3fff returns exactly the upper end of the lock window, the one from 0x1fff exactly the lower end, and both return 0 when nothing locks |
| `DacTraining.ThirteenAreTooFew` | M23_Utilities.c:245-300 | 13 completed probes are not always enough |
| `DacTraining.FallingResponseLocks` | M23_Utilities.c:257-282 | every falling response that counts too high at 0x1fff and not at all at 0x3fff has exactly such a window, nonempty iff some value locks |
| `DacTraining.GetMarkClk` | M23_Utilities.c:231-304 | the loop performs one step of the bisection for each probe that completes within 100 reads, and none for the others |
| `DacTraining.TrainTimeCode` | M23_Utilities.c:306-325 | the programmed value is the middle of the window, lies in it and locks |
| `DataConversion.ReturnDataWord` | M23_DataConversion.c:133-152 | the loop returns Gather of word and mask, for every width |
| `DataConversion.GatherFits` | M23_DataConversion.c:133-152 | the result is below 2 to the number of ones in the mask |
| `DataConversion.ScatterUndoesGather` | M23_DataConversion.c:133-152 | spreading the result out through the mask gives exactly word & mask |
| `DataConversion.GatherUndoesScatter` | M23_DataConversion.c:133-152 | every value below 2 to the number of ones is gathered from its own scatter |
| `DataConversion.GatherKeepsOrder` | M23_DataConversion.c:141-149 | the bit at a masked place moves to the number of masked places below it |
| `DataConversion.EventsAreEdges` | M23_DataConversion.c:359-770 | over every sample sequence events are exactly the entries into the high or low zone from a different zone, and the flags record the last zone, if and only if the operator is not arithmetic or its fall-back value 0 lies outside the zone (and for the remainder no value lies between the limits) |
| `DataConversion.Conversion.DoCalculation` | M23_DataConversion.c:345-773 | performs Calculated on the flags, identically for bus and PCM measurements, and says whether it divided by zero |
| `F15Time.ClockEncodesNextSecond` | M23_M1553_cmd.c:2088-2090 | hours, minutes and seconds encode the whole second after the time of day |
| `F15Time.RefTimeIsWithinOneTick` | M23_M1553_cmd.c:2128-2134 | the reference time is at most one 100 ns tick before the exact time of that second |
| `F15Time.RepresentativeIsUnique` | M23_M1553_cmd.c:2118-2119 | at most one value in [-20000, 20000] represents a tag difference modulo 65536 |
| `F15Time.AcceptedSyncRepresents` | M23_M1553_cmd.c:2109-2119 | an accepted difference represents ST2 - ST1 modulo 65536 |
| `F15Time.SyncAcceptedExactly` | M23_M1553_cmd.c:2109-2119 | a difference is accepted if and only if a representative exists, the tags do not lie within 20000 of each other on different sides of 0xB1E0, and are not exactly 45536 apart on the same side |
| `F15Time.NeighboursRefused` | M23_M1553_cmd.c:2109-2119 | the tags 0xB1E0 and 0xB1E1 are refused although they are one apart |
| `F15Time.JamsAtMostOnce` | M23_M1553_cmd.c:776-838 | over every event sequence time is jammed at most once, and only by an accepted T20 that follows a valid T20, an R0 and a T9 in this order, with the clock, day and reference time of those messages |
| `F15Time.JamsExactly` | M23_M1553_cmd.c:776-838 | an event sequence jams the time if and only if, from the first valid T20 on, the rounds of first captured R0, next T9 and next T20 reach one whose T20 is accepted before one whose T20 is invalid; with the day, clock and reference time of that round |
| `F15Words.RoundOfFigures` | M23_M1553_cmd.c:655-838 | a round of messages that carry given figures - ticks and tag, second of the day and tag, hour and day - jams the time if and only if the hour is that of the next second and the tags are accepted; then to that second, day and reference time.  A T9 in the last second of a day never does |
| `F15Words.DayAndHour` | M23_M1553_cmd.c:2059-2081 | a T20 with the decimal digits of an hour and a day of the year gives these |
| `F15Words.Ticks` | M23_M1553_cmd.c:655-725 | the four words of an R0 give the signed 64-bit count they encode |
| `F15Words.TimeCarried` | M23_M1553_cmd.c:727-776 | the two words of a T9 give the second of the day and its fraction |
| `F15Time.SecondT20Decides` | M23_M1553_cmd.c:820-834 | the second T20 jams the time if and only if it is accepted; a mismatch starts over with R0; an invalid T20 ends the machine without a time |
| `F15Time.NothingLeavesTheEnd` | M23_M1553_cmd.c:835-837 | after the second T20 was taken no event changes anything |
| `F15Time.TimeSync.ProcessF15Time` | M23_M1553_cmd.c:776-838 | performs Next on the whole state |
| `F15Time.TimeSync.F15Time` | M23_M1553_cmd.c:1973-2214 | its status and state changes are those of Next for a T20 |
| `PcmSizing.UnpackedSizingIsTight` | M23_PCM_sizing.c:289-348 | with several minor frames per major frame and products below 2^32, the major-frame count is the largest whose minor frames fit 112000 bits with headers and an eleventh of a second, and sync is off iff not even one fits |
| `PcmSizing.UnpackedSizingExactly` | M23_PCM_sizing.c:289-348 | for every input that is neither refused nor divides by zero, the answer is tight if and only if no product wraps around, or the wrapped products allow fewer minor frames than a major frame has |
| `PcmSizing.WrappedAnswer` | M23_PCM_sizing.c:301-315 | a minor frame of 2^28 + 1 words is given 583 major frames although none fits |
| `PcmSizing.SingleMinorSizing` | M23_PCM_sizing.c:324-329 | with one minor frame per major frame the count of minors is the largest that fits, and sync stays on even for none |
| `PcmSizing.DividesByZeroExactly` | M23_PCM_sizing.c:311-313 | the size computation divides by zero if and only if words take 16 bits and words + 5 is a multiple of 2^28 |
| `PcmSizing.ThroughputFits` | M23_PCM_sizing.c:12-38 | throughput mode gives a multiple of 16 words with 160 * words at most the bit rate, the largest such below 8192, and 16 times 500 words from there on |
| `PcmSizing.PackedWordsHoldTheData` | M23_PCM_sizing.c:121-151 | packed words hold all data bits if and only if the sync pattern has 16 or 32 bits or the data fill whole words |
| `PcmSizing.PackedFrames` | M23_PCM_sizing.c:106-280 | while nothing wraps around, a packed frame takes the whole words of its data, those its sync pattern fills in whole or in part, and five; a major frame is packed whole if and only if it is one, has at most 8000 words and comes more than 11 times a second |

## Left out

- Registers, I2C, the 1394 login, LEDs, serial lines, GPS and SSRIC: foreign hardware, whose answers are parameters here.
- Thread races, such as an event appended during a drain: every handler and every turn of a loop is one atomic step.
- Terminators of the 8-character date and time strings that `sprintf` writes into the neighbouring field, and the `memset` calls that run past the table: fields have fixed lengths and only the named block is cleared.
- `sUpdateVolumeName`, `M23_AddNewStanag` and `M23_SetVolume`: they change the table in memory without storing it.
- Loading a TMATS or firmware file inside `FileRetrieveFileTable`: the first file has an ordinary name, or a setup is loaded already.
- StanagVolume.Stanag.FileRetrieveFileTable: with the node probe it requires at most four entries in every block on the cartridge, since the code reads past the block for more.
- StanagVolume.Stanag.SInit: the same, as it calls FileRetrieveFileTable.
- StanagVolume.Stanag.WriteNodesFile: at most 31999 entries, what the 512000-byte buffer holds; the code does not check it.
- StanagVolume.Stanag.SErase: the volume name that `M23_SetVolume` gives the emptied directory is not modelled.
- NodeFile.FillBuffer: at most 31999 entries; the code writes past the end of its buffer for more.
- NodeFile.FindOnDisk: a count of at most 31999 on the cartridge; the code does not check it, reads past its buffer for more, and counts of 2^27 or more overflow its int.
- VolumeInvariant.OpenKeepsInv: the invariant, and with it every run, covers 511 files; the code has no check for a full directory, and the close of a 512th moves the file number behind the table.
- Runs.StepKeepsSound: sclose is called with a connected cartridge and fewer than 2^31 blocks (VolumeInvariant.SCloseCursor says what happens otherwise), and every node list has at most 31999 entries.
- Runs.RunKeepsSound: a restart is one after which sinit gives a state of the allocator at all; NodeRecovery.StartExactly says exactly when, TornErase and StaleStart what happens otherwise.
- Layout.RunKeepsLaid: at a restart that finds a directory the cartridge holds a list, with 32-bit block addresses and at most 508 files where node files are looked for; sinit cannot tell the end of a node file otherwise.
- Lookup.SearchesInEveryRun: the same restarts.
- DiskIo.Cartridge.Erase: an erased cartridge reads as zeros; the code only sends the command, and Backing.EraseNeedsTheCartridge and Backing.BlankStart rest on it.
- NodeTime.SearchFindsInstant: days count from 1, as the code starts up; a target whose tag loses its carry is left to TimeTagExactly.
- RootAnswers.AnswersExactly: a recording that starts clean; RootQueue.SafeIffClean says when that is.
- PcmSizing.PackedFrames: products that fit 32 bits.
- Recorder.CommandKeepsGood: a stop and an update are issued only while recording and playback is started only in IDLE, ERROR or RECORD; where that is needed is stated by StopNeedsARecording and PlaybackStartNeedsItsStates.
- Recorder.CommandRunsItsOps: the same; RTEST, PTEST, `Removal_Stop` and direct calls of `RecordFile` are not commands of the model.
- ControlLoop.TurnKeepsGood: a publication that is due carries at least one byte, as the control loop's own test for a nonzero offset intends.
- Controller.M23Controller.RecordingTurn: turns that write in front of an empty directory block are left out; ControlLoop.Turned gives them the outcome OutOfBounds.
- The choice between the two searches by `M23_GetFileFromTime`, in particular across midnight.
- EventLog.RunKeepsDraining: at most 4094 logged events, which is exact by LastEventsAreDropped; TurnExactly says what each later turn sends, and no theorem covers whole runs behind the wrap of the ring.
- EventProcessor.M23EventProcessor.WriteEventsToHost: the wait for the shared UART channel to become free has no bound in the code and is taken to end.
- `m23_WriteRecordEvents`, the printing of events, and the queue of 1553 interrupts with its rollover.
- F15Time.TimeSync.F15Time: the stop and restart of a running recording around the jam, and the logging of the time-sync event, are commands of the other modules; the relative time is not wrapped at 64 bits.
- F15Time.TimeSync.ProcessF15Time: a message is complete in its FIFO; the code reads uninitialised words when it is not, and an uninitialised status in `ProcessR0_Event`.
- Conversions with two operands and the modes 2 and 3: one comparison of two assembled values, without state.
- `CalcThroughPutMode_Old` and `CalcUnPackedMode_New`: not the forms the recorder uses; the second repeats packed mode.
- `M23_CheckStatus` and the other health polling: long, but only repeated independent branches.
- Read and play cursors, the printing of the file table, and the conversion between dates and day numbers.
