// What the cartridge holds in every run, as far as updates reach it.
module Backing {
  import opened Bytes
  import opened DirectoryFormat
  import opened Directory
  import opened DiskIo
  import opened NodeFile
  import opened Volume
  import opened VolumeInvariant
  import opened Recovery
  import opened Crash
  import opened NodeRecovery
  import opened Runs
  import opened TornErase

  // The cartridge holds an earlier state of the list: closed files unchanged,
  // the then open one possibly with an older size.
  ghost predicate Behind(stored: seq<FileEntry>, files: seq<FileEntry>) {
    && |stored| <= |files|
    && (forall k :: 0 <= k < |stored| - 1 ==> stored[k] == files[k])
    && (stored != [] ==>
          var k := |stored| - 1;
          stored[k].startAddress == files[k].startAddress && Placed(stored[k], k))
  }

  ghost predicate Backed(v: Vol) {
    DiskHolds(v.sectors, Stored(v)) && Behind(Stored(v), Files(v))
  }

  // A write-back now would leave no outdated block behind.
  predicate WriteBackReaches(v: Vol) {
    4 * (v.fileNumber / 4 - 1) <= UpToDate(Stored(v), Files(v))
  }

  predicate WritesBack(op: Op) {
    ((op.Publish? || op.PublishAll?) && op.present && op.connected) || op.SClose?
  }

  ghost predicate CutReaches(v: Vol, cut: Cut) {
    match cut
    case AtRest => true
    case InUpdate(_, _) => WriteBackReaches(v)
    case InErase(k) => k == 0 || |Stored(v)| <= 4 * k
  }

  // The step leaves a list on the cartridge.
  ghost predicate Reaches(v: Vol, op: Op) {
    && (WritesBack(op) ==> WriteBackReaches(v))
    && (op.Erase? ==> op.ok || Stored(v) == [])
    && (op.PowerLoss? ==>
          Cuttable(v, op.cut) && CutReaches(v, op.cut) && DirectoryReadable(CutSectors(v, op.cut), op.faults))
  }

  // That list when power is lost.
  ghost function CutList(v: Vol, cut: Cut): seq<FileEntry>
    requires cut.InUpdate? ==> Files(v) != [] && LastIn(Files(v), v.fileNumber / 4)
    requires cut.InErase? ==> Files(v) != []
  {
    match cut
    case AtRest => Stored(v)
    case InUpdate(total, time) =>
      assert |Published(Files(v), total, time)| == |Files(v)|;
      Mixed(Stored(v), Published(Files(v), total, time), v.fileNumber / 4)
    case InErase(k) => if k == 0 then Stored(v) else KeptFile(Files(v))
  }

  /* ---------- lists ---------- */

  lemma IsBacked(v: Vol, files: seq<FileEntry>, stored: seq<FileEntry>)
    requires Files(v) == files && DiskHolds(v.sectors, stored) && Behind(stored, files)
    ensures Backed(v) && Stored(v) == stored
  {
    assert |v.sectors| >= RESERVED_BLOCKS;
    DiskHoldsOneSequence(v.sectors, stored);
    hide Behind, DiskHolds, StoredFiles;
  }

  lemma BehindItself(v: Vol)
    requires Sound(v)
    ensures Behind(Files(v), Files(v)) && Plausible(Files(v))
  {
    hide Holds, PaddedEntry, Ordered;
  }

  lemma BehindAppended(stored: seq<FileEntry>, files: seq<FileEntry>, e: FileEntry)
    requires Behind(stored, files)
    ensures Behind(stored, files + [e])
  {
    assert forall k :: 0 <= k < |files| ==> (files + [e])[k] == files[k];
  }

  lemma BehindPublished(stored: seq<FileEntry>, files: seq<FileEntry>, total: U64, time: Text8)
    requires Behind(stored, files) && files != []
    ensures Behind(stored, Published(files, total, time))
  {
    var published := Published(files, total, time);
    assert |published| == |files|;
    assert forall k :: 0 <= k < |files| - 1 ==> published[k] == files[k];
    assert published[|files| - 1].startAddress == files[|files| - 1].startAddress;
  }

  lemma BehindIsPlausible(stored: seq<FileEntry>, files: seq<FileEntry>)
    requires Behind(stored, files) && Plausible(files)
    ensures Plausible(stored)
  {
    forall k | 0 <= k < |stored| - 1 ensures End(stored[k]) <= stored[k + 1].startAddress {
      assert stored[k] == files[k];
      assert stored[k + 1].startAddress == files[k + 1].startAddress;
    }
    forall k | 0 <= k < |stored| ensures Placed(stored[k], k) {
      if k < |stored| - 1 {
        assert stored[k] == files[k];
      }
    }
  }

  lemma MixedIsBehind(stored: seq<FileEntry>, files: seq<FileEntry>, b: nat)
    requires Behind(stored, files) && Plausible(files) && LastIn(files, b)
    ensures Behind(Mixed(stored, files, b), files)
  {
    var mixed := Mixed(stored, files, b);
    assert forall k :: 0 <= k < |mixed| && k < 4 * b ==> mixed[k] == files[k];
    assert forall k :: 4 * b <= k < |mixed| ==> mixed[k] == stored[k];
    if mixed != [] && |mixed| == 4 * b {
      assert Placed(files[|mixed| - 1], |mixed| - 1);
    }
  }

  // Publishing does not touch the files before the open one, the only ones
  // a write-back does not store itself.
  lemma SameReach(stored: seq<FileEntry>, files: seq<FileEntry>, published: seq<FileEntry>, k: int)
    requires |files| == |published| && k < |files|
    requires forall i :: 0 <= i < |files| - 1 ==> published[i] == files[i]
    ensures k <= UpToDate(stored, files) <==> k <= UpToDate(stored, published)
  {
    if 0 <= k <= UpToDate(stored, files) {
      UpToDateAtLeast(stored, published, k);
    }
    if 0 <= k <= UpToDate(stored, published) {
      UpToDateAtLeast(stored, files, k);
    }
  }

  /* ---------- write-backs ---------- */

  // What every write-back does: the list in memory changes in its last entry
  // only, and two blocks are stored.
  ghost predicate StoresTwoBlocks(v: Vol, w: Vol) {
    && v.isOpen && Sound(w) && |Files(w)| == |Files(v)| && Files(v) != [] && |w.table| == MAX_STANAG_BLOCKS
    && (forall i :: 0 <= i < |Files(v)| - 1 ==> Files(w)[i] == Files(v)[i])
    && Files(w)[|Files(v)| - 1].startAddress == Files(v)[|Files(v)| - 1].startAddress
    && v.fileNumber == |Files(v)| - 1 < MAX_FILES
    && w.sectors == StoredCurrent(v.sectors, w.table, v.fileNumber / 4)
  }

  lemma SoundIsWritable(w: Vol)
    requires Sound(w) && Files(w) != []
    ensures Writable(w.table, Files(w))
  {
    hide Holds, PaddedEntry, Ordered, Placed;
  }

  lemma LastInBlock(files: seq<FileEntry>)
    requires 0 < |files| <= MAX_FILES
    ensures LastIn(files, (|files| - 1) / 4)
  {
  }

  lemma WriteBackKeepsBacked(v: Vol, w: Vol)
    requires Backed(v) && StoresTwoBlocks(v, w) && WriteBackReaches(v)
    ensures Backed(w) && Stored(w) == Files(w)
  {
    var b := v.fileNumber / 4;
    hide Sound, Files, Stored, UpToDate, Writable, DiskHolds, StoredCurrent;
    SoundIsWritable(w);
    LastInBlock(Files(w));
    SameReach(Stored(v), Files(v), Files(w), 4 * (b - 1));
    TwoBlockWriteBack(v.sectors, w.table, Files(w), Stored(v), b);
    BehindItself(w);
    IsBacked(w, Files(w), Files(w));
  }

  // Otherwise the cartridge holds nothing the next start could trust: a
  // write-back leaves a list on the cartridge exactly when it reaches.
  lemma WriteBackExactly(v: Vol, w: Vol)
    requires Backed(v) && StoresTwoBlocks(v, w)
    ensures Backed(w) <==> WriteBackReaches(v)
  {
    if WriteBackReaches(v) {
      WriteBackKeepsBacked(v, w);
    } else {
      var b := v.fileNumber / 4;
      hide Sound, Files, Stored, UpToDate, Writable, StoredCurrent, LoadAll, BlockFromImage, Shows, Holds;
      SoundIsWritable(w);
      LastInBlock(Files(w));
      SameReach(Stored(v), Files(v), Files(w), 4 * (b - 1));
      TwoBlockWriteBack(v.sectors, w.table, Files(w), Stored(v), b);
      BlocksAfterStore(v.sectors, w.table, Files(w), Stored(v), b);
      if Backed(w) {
        assert Shows(LoadAll(w.sectors)[b], Files(w), b);
        SameLastBlock(LoadAll(w.sectors), Stored(w), Files(w), b);
      }
    }
  }

  // A list that is behind files but agrees with them in the last block is
  // files.
  lemma SameLastBlock(t: seq<DirBlock>, stored: seq<FileEntry>, files: seq<FileEntry>, b: nat)
    requires Holds(t, stored) && Behind(stored, files) && LastIn(files, b) && Shows(t[b], files, b)
    ensures stored == files
  {
    assert Live(|stored|, b) == Live(|files|, b) > 0;
    assert |stored| == |files|;
    var k := |files| - 1;
    assert t[k / 4].fileEntries[k % 4] == stored[k] && k / 4 == b && 4 * b + k % 4 == k;
  }

  lemma UpdatedSectors(v: Vol, time: Text8)
    requires CanUpdate(v)
    ensures Updated(v, time, true).sectors
         == StoredCurrent(v.sectors, Updated(v, time, true).table, v.fileNumber / 4)
    ensures Updated(v, time, false).sectors == v.sectors
  {
    hide UpdatedTable, StoredCurrent;
  }

  lemma SClosedSectors(v: Vol, increment: bool, fill: nat, btmFill: U32, blocksRecorded: U32, time: Text8)
    requires CanUpdate(v)
    ensures var w := SClosed(v, increment, fill, btmFill, blocksRecorded, true, time);
      w.sectors == StoredCurrent(v.sectors, w.table, v.fileNumber / 4)
  {
    hide ClosingBytes, Blocks, Int32, StoreBlock, UpdatedTable, StoredCurrent, BlankedTable;
  }

  lemma WriteBackStep(probe: bool, v: Vol, op: Op)
    requires Sound(v) && Enabled(probe, v, op) && WritesBack(op)
    ensures StoresTwoBlocks(v, Step(probe, v, op)) && Files(Step(probe, v, op)) == NextFiles(v, op)
  {
    assert v.isOpen && (op.SClose? || op.present);
    hide Sound, Files, Step, ClosingBytes, Published, Enabled, StoredCurrent, StoresTwoBlocks, Blocks, Makes;
    StepKeepsSound(probe, v, op);
    WriteBackStoresTwo(probe, v, op);
    StoresAs(v, Step(probe, v, op), NewSize(v, op), op.time);
  }

  // The bytes a write-back publishes.
  function NewSize(v: Vol, op: Op): U64
    requires WritesBack(op)
  {
    match op
    case Publish(offset, pktLen, _, _, _) => (offset + pktLen) % TWO64
    case PublishAll(blocks, _, _, _) => blocks * 512
    case SClose(_, fill, btmFill, blocksRecorded, _) => ClosingBytes(v.totalBytes, fill, btmFill, blocksRecorded)
  }

  lemma StoresAs(v: Vol, w: Vol, total: U64, time: Text8)
    requires Sound(v) && v.isOpen && Files(v) != [] && Makes(w, Published(Files(v), total, time))
    requires |w.table| == MAX_STANAG_BLOCKS && v.fileNumber < MAX_NUM_FILES
    requires w.sectors == StoredCurrent(v.sectors, w.table, v.fileNumber / 4)
    ensures StoresTwoBlocks(v, w)
  {
    OpenCanUpdate(v);
    PublishedShape(Files(v), total, time);
    hide Sound, Files, Published, StoredCurrent;
  }

  lemma PublishedShape(files: seq<FileEntry>, total: U64, time: Text8)
    requires files != []
    ensures var published := Published(files, total, time);
      && |published| == |files|
      && (forall i :: 0 <= i < |files| - 1 ==> published[i] == files[i])
      && published[|files| - 1].startAddress == files[|files| - 1].startAddress
  {
  }

  lemma WriteBackStoresTwo(probe: bool, v: Vol, op: Op)
    requires Sound(v) && Enabled(probe, v, op) && WritesBack(op)
    ensures Step(probe, v, op).sectors == StoredCurrent(v.sectors, Step(probe, v, op).table, v.fileNumber / 4)
    ensures |Step(probe, v, op).table| == MAX_STANAG_BLOCKS && v.fileNumber < MAX_NUM_FILES
  {
    EnabledSteps(probe, v, op);
    OpenCanUpdate(v);
    hide Sound, Files, StoredCurrent, UpdatedTable, Blocks, ClosingBytes;
    match op
    case Publish(offset, pktLen, _, _, time) => UpdatedSectors(v.(totalBytes := (offset + pktLen) % TWO64), time);
    case PublishAll(blocks, _, _, time) =>
      UpdatedSectors(v.(totalBytes := blocks * 512, blocksWritten := blocks), time);
    case SClose(increment, fill, btmFill, blocksRecorded, time) =>
      SClosedSectors(v, increment, fill, btmFill, blocksRecorded, time);
  }

  /* ---------- steps that leave the directory on the cartridge alone ---------- */

  ghost predicate Untouched(sectors: seq<Sector>, others: seq<Sector>) {
    |sectors| == |others| && forall i :: 0 <= i < |sectors| && i < RESERVED_BLOCKS ==> others[i] == sectors[i]
  }

  predicate LeavesDirectory(op: Op) {
    !WritesBack(op) && !op.EraseKeepingTmats? && !op.PowerLoss? && !(op.Erase? && op.ok)
  }

  lemma LeavesDirectoryUntouched(probe: bool, v: Vol, op: Op)
    requires Sound(v) && Enabled(probe, v, op) && LeavesDirectory(op)
    ensures Untouched(v.sectors, Step(probe, v, op).sectors)
  {
    EnabledSteps(probe, v, op);
    if op.StopWithNodes? {
      StopStep(v, op.increment);
      NodesStep(v, op.increment, op.nodes, op.stale, op.connected);
      FilesEndBehindDirectory(v);
      hide Sound, Files, EmergencyClosed, NodesWritten, StoredAt, EndOfFiles;
    } else {
      assert op.Capture? ==> op.a >= RESERVED_BLOCKS by {
        hide Holds;
      }
      hide Sound, Files, OpenedTable, UpdatedTable, BlankedTable, StoredCurrent, Blocks, Step;
      PlainStepSectors(probe, v, op);
    }
  }

  lemma PlainStepSectors(probe: bool, v: Vol, op: Op)
    requires Sound(v) && Enabled(probe, v, op) && LeavesDirectory(op) && !op.StopWithNodes?
    ensures Step(probe, v, op).sectors == if op.Capture? then WriteAt(v.sectors, op.a, op.sector) else v.sectors
  {
    EnabledSteps(probe, v, op);
    hide Sound, Files, OpenedTable, UpdatedTable, BlankedTable, StoredCurrent, Blocks, InitTable;
  }

  lemma FilesEndBehindDirectory(v: Vol)
    requires Sound(v)
    ensures RESERVED_BLOCKS <= EndOfFiles(Files(v))
  {
    hide Holds, PaddedEntry, Placed;
    if Files(v) != [] {
      FirstBlockBound(Files(v), |Files(v)| - 1);
    }
  }

  lemma SameOnCartridge(v: Vol, w: Vol)
    requires DiskHolds(v.sectors, Stored(v)) && Untouched(v.sectors, w.sectors)
    ensures Stored(w) == Stored(v) && DiskHolds(w.sectors, Stored(v))
  {
    assert |v.sectors| >= RESERVED_BLOCKS;
    LoadsDespiteData(v.sectors, w.sectors);
    hide LoadAll, BlockFromImage, Holds;
  }

  lemma PlainStepKeepsBacked(probe: bool, v: Vol, op: Op)
    requires Sound(v) && Backed(v) && Enabled(probe, v, op) && LeavesDirectory(op)
    requires op.Erase? ==> Stored(v) == []
    ensures Backed(Step(probe, v, op)) && Stored(Step(probe, v, op)) == Stored(v)
  {
    LeavesDirectoryUntouched(probe, v, op);
    StepKeepsSound(probe, v, op);
    var w := Step(probe, v, op);
    hide Sound, Files, Stored, Step, DiskHolds, Enabled, Behind;
    SameOnCartridge(v, w);
    StillBehind(v, op);
    IsBacked(w, NextFiles(v, op), Stored(v));
  }

  lemma StillBehind(v: Vol, op: Op)
    requires Behind(Stored(v), Files(v)) && LeavesDirectory(op) && (op.Erase? ==> Stored(v) == [])
    requires op.Publish? || op.PublishAll? ==> Files(v) != []
    ensures Behind(Stored(v), NextFiles(v, op))
  {
    hide Files, Stored, Behind, Published;
    match op
    case Open(name, date, time) => BehindAppended(Stored(v), Files(v), NewEntry(name, v.writeBlock, date, time));
    case Publish(offset, pktLen, _, _, time) => BehindPublished(Stored(v), Files(v), (offset + pktLen) % TWO64, time);
    case PublishAll(blocks, _, _, time) => BehindPublished(Stored(v), Files(v), blocks * 512, time);
    case Erase(_) => NothingIsBehind();
    case _ =>
  }

  lemma NothingIsBehind()
    ensures Behind([], [])
  {
  }

  /* ---------- erasing ---------- */

  lemma {:induction false} ZeroMirrored(n: nat, i: nat)
    requires i <= n
    ensures MirroredBytes(0, n, i) == 0
  {
    if i > 0 {
      ZeroMirrored(n, i - 1);
      assert ByteAt(0, i - 1) == 0;
    }
  }

  // An erased directory block has no entries, and no magic number.
  lemma ZeroSectorIsEmpty()
    ensures LoadBlock(ZERO_SECTOR).numberOfFileEntries == 0
    ensures BlockFromImage(ZERO_SECTOR).magicNumber != MAGIC
  {
    var s := ZERO_SECTOR[10..12];
    assert s == [0, 0];
    assert FromLittleEndian(s[1..]) == 0 + 0x100 * FromLittleEndian(s[1..][1..]);
    assert Get16(s) == 0;
    ZeroMirrored(2, 2);
    assert BlockFromImage(ZERO_SECTOR).magicNumber[0] == 0;
  }

  lemma BlankHoldsNothing(sectors: seq<Sector>)
    requires |sectors| >= RESERVED_BLOCKS
    requires forall i :: 1 <= i < RESERVED_BLOCKS ==> sectors[i] == ZERO_SECTOR
    ensures DiskHolds(sectors, [])
  {
    var t := LoadAll(sectors);
    ZeroSectorIsEmpty();
    hide LoadBlock;
    forall j | 0 <= j < MAX_STANAG_BLOCKS ensures t[j].numberOfFileEntries == Live(0, j) {
      assert sectors[SYSTEM_RESERVE_BLOCKS + j] == ZERO_SECTOR;
      assert t[j] == LoadBlock(ZERO_SECTOR);
    }
  }

  lemma EraseKeepsBacked(v: Vol)
    requires Sound(v) && !v.isOpen
    ensures Backed(Erased(v, true)) && Stored(Erased(v, true)) == []
  {
    EraseStep(v, true);
    var w := Erased(v, true);
    assert |v.sectors| >= RESERVED_BLOCKS;
    assert forall i :: 1 <= i < RESERVED_BLOCKS ==> w.sectors[i] == ZERO_SECTOR by {
      hide InitTable;
    }
    BlankHoldsNothing(w.sectors);
    NothingIsBehind();
    hide Erased, Files, Sound, DiskHolds, Behind;
    IsBacked(w, [], []);
  }

  // The source does not write the emptied directory itself.  When the
  // cartridge does not carry out the erase command, the old list stays there,
  // to be found again after the next loss of power.
  lemma EraseNeedsTheCartridge(v: Vol, ok: bool)
    requires Sound(v) && Backed(v) && !v.isOpen
    ensures Backed(Erased(v, ok)) <==> ok || Stored(v) == []
  {
    if ok {
      EraseKeepsBacked(v);
    } else {
      var w := Erased(v, false);
      EraseStep(v, false);
      assert w.sectors == v.sectors;
      hide Erased, LoadAll, BlockFromImage, Holds;
    }
  }

  // The erase that keeps the TMATS file stores the whole new directory.
  lemma TmatsEraseKeepsBacked(v: Vol)
    requires Sound(v) && Backed(v) && !v.isOpen && v.fileNumber > 0
    ensures Files(v) != [] && |v.table| == MAX_STANAG_BLOCKS
    ensures Backed(TmatsErased(v)) && Stored(TmatsErased(v)) == KeptFile(Files(v))
  {
    TmatsEraseStep(v);
    ListFits(v.sectors, Stored(v));
    TornEraseHolds(v, Stored(v), MAX_STANAG_BLOCKS);
    var w := TmatsErased(v);
    assert w.sectors == CutSectors(v, InErase(MAX_STANAG_BLOCKS)) by {
      hide TmatsTable, StoredAll;
    }
    BehindItself(w);
    hide TmatsErased, Files, Stored, Sound, DiskHolds, Behind, CutSectors, Cuttable;
    IsBacked(w, KeptFile(Files(v)), KeptFile(Files(v)));
  }

  /* ---------- losing power ---------- */

  // Wherever power is lost - as long as write-backs reach, and the erase has
  // rewritten the whole old list - the cartridge holds a list that the
  // allocator could have written.
  lemma CutHoldsList(v: Vol, cut: Cut)
    requires Sound(v) && Backed(v) && Cuttable(v, cut) && CutReaches(v, cut)
    ensures cut.InUpdate? ==> Files(v) != [] && LastIn(Files(v), v.fileNumber / 4)
    ensures cut.InErase? ==> Files(v) != []
    ensures DiskHolds(CutSectors(v, cut), CutList(v, cut)) && Plausible(CutList(v, cut))
    ensures StoredOn(CutSectors(v, cut)) == CutList(v, cut)
  {
    match cut
    case AtRest => AtRestHoldsList(v);
    case InUpdate(total, time) => InUpdateHoldsList(v, total, time);
    case InErase(k) => InEraseHoldsList(v, k);
  }

  lemma ListOn(sectors: seq<Sector>, list: seq<FileEntry>)
    requires DiskHolds(sectors, list)
    ensures StoredOn(sectors) == list
  {
    assert |sectors| >= RESERVED_BLOCKS;
    DiskHoldsOneSequence(sectors, list);
    hide DiskHolds, StoredFiles;
  }

  lemma AtRestHoldsList(v: Vol)
    requires Sound(v) && Backed(v)
    ensures DiskHolds(v.sectors, Stored(v)) && Plausible(Stored(v))
  {
    BehindItself(v);
    hide Sound, Files, Stored, DiskHolds, Behind, Plausible;
    BehindIsPlausible(Stored(v), Files(v));
  }

  lemma InUpdateHoldsList(v: Vol, total: U64, time: Text8)
    requires Sound(v) && Backed(v) && Cuttable(v, InUpdate(total, time)) && WriteBackReaches(v)
    ensures Files(v) != [] && LastIn(Files(v), v.fileNumber / 4)
    ensures var cut := InUpdate(total, time);
      && DiskHolds(CutSectors(v, cut), CutList(v, cut)) && Plausible(CutList(v, cut))
      && StoredOn(CutSectors(v, cut)) == CutList(v, cut)
  {
    OpenCanUpdate(v);
    UpdateStep(v, total, true, time);
    LastInBlock(Files(v));
    var w := Updated(v.(totalBytes := total), time, true);
    var published, b := Published(Files(v), total, time), v.fileNumber / 4;
    assert w.table == UpdatedTable(v.table, v.fileNumber, total, time) by {
      hide StoredCurrent;
    }
    SoundIsWritable(w);
    BehindItself(w);
    PublishedShape(Files(v), total, time);
    hide Updated, UpdatedTable, Published, Sound, Files, Stored, UpToDate, DiskHolds, Behind, Plausible, Writable,
         StoredPrevious, Mixed, StoredOn, Cuttable;
    SameReach(Stored(v), Files(v), published, 4 * (b - 1));
    BehindPublished(Stored(v), Files(v), total, time);
    BehindNoLonger(Stored(v), published);
    CrashBetweenWrites(v.sectors, w.table, published, Stored(v), b);
    MixedIsBehind(Stored(v), published, b);
    BehindIsPlausible(Mixed(Stored(v), published, b), published);
    ListOn(StoredPrevious(v.sectors, w.table, b), Mixed(Stored(v), published, b));
  }

  lemma BehindNoLonger(stored: seq<FileEntry>, files: seq<FileEntry>)
    requires Behind(stored, files)
    ensures |stored| <= |files|
  {
  }

  lemma InEraseHoldsList(v: Vol, k: nat)
    requires Sound(v) && Backed(v) && Cuttable(v, InErase(k)) && CutReaches(v, InErase(k))
    ensures Files(v) != []
    ensures var cut := InErase(k);
      && DiskHolds(CutSectors(v, cut), CutList(v, cut)) && Plausible(CutList(v, cut))
      && StoredOn(CutSectors(v, cut)) == CutList(v, cut)
  {
    KeptIsWritable(v);
    if k == 0 {
      AtRestHoldsList(v);
      assert CutSectors(v, InErase(0)) == v.sectors;
    } else {
      TornEraseHolds(v, Stored(v), k);
      hide Sound, Files, Stored, DiskHolds, Behind, Plausible, Writable, CutSectors, Cuttable;
      ListOn(CutSectors(v, InErase(k)), KeptFile(Files(v)));
    }
  }

  // Within 32-bit block addresses a restart is possible exactly when sinit can
  // read what it looks at, and the list leaves a directory block empty or ends
  // where it begins to look.
  lemma RestartIsPossible(v: Vol, cut: Cut, faults: set<nat>, probe: bool)
    requires Sound(v) && Backed(v) && Cuttable(v, cut) && CutReaches(v, cut)
    ensures cut.InUpdate? ==> Files(v) != [] && LastIn(Files(v), v.fileNumber / 4)
    ensures cut.InErase? ==> Files(v) != []
    ensures var s, list := CutSectors(v, cut), CutList(v, cut);
      (probe ==> Addressable(list)) ==>
        (Restartable(s, faults, probe)
         <==> (FindsDirectory(s, faults) ==>
                 && (probe ==> Probeable(s, faults, list, 0))
                 && (|list| <= MAX_RECOVERABLE_FILES || EndOfFiles(list) <= RESERVED_BLOCKS + Reserve(s, list, probe))))
  {
    hide Sound, Files, Stored, DiskHolds, Plausible, CutSectors, CutList, StoredOn, Cuttable, Backed, CutReaches,
         Restartable, FindsDirectory, EndOfFiles, Reserve, Addressable, Probeable;
    CutHoldsList(v, cut);
    var s, list := CutSectors(v, cut), CutList(v, cut);
    assert |v.sectors| >= RESERVED_BLOCKS by {
      InvSectors(v);
    }
    if probe ==> Addressable(list) {
      RestartableList(s, list, faults, probe);
    }
  }

  lemma InvSectors(v: Vol)
    requires Sound(v)
    ensures |v.sectors| >= RESERVED_BLOCKS
  {
  }

  lemma RestartableList(s: seq<Sector>, list: seq<FileEntry>, faults: set<nat>, probe: bool)
    requires DiskHolds(s, list) && Plausible(list) && |s| >= RESERVED_BLOCKS && (probe ==> Addressable(list))
    ensures Restartable(s, faults, probe)
       <==> (FindsDirectory(s, faults) ==>
               && (probe ==> Probeable(s, faults, list, 0))
               && (|list| <= MAX_RECOVERABLE_FILES || EndOfFiles(list) <= RESERVED_BLOCKS + Reserve(s, list, probe)))
  {
    DiskHoldsOneSequence(s, list);
    FirstBlockOfList(s, list);
    hide LoadAll, BlockFromImage, Holds, Plausible, EndOfFiles, Probeable, LastCount, Scanned, StoredFiles, Addressable;
    if probe {
      ScannedOnList(s, faults, list);
      NoFilesProbed(s, faults);
    }
  }

  lemma FirstBlockOfList(s: seq<Sector>, list: seq<FileEntry>)
    requires DiskHolds(s, list)
    ensures LoadAll(s)[0].numberOfFileEntries == 0 <==> list == []
  {
    hide LoadAll, BlockFromImage;
  }

  lemma NoFilesProbed(s: seq<Sector>, faults: set<nat>)
    ensures Probeable(s, faults, [], 0)
  {
  }

  // sinit can tell the end of the list, and of a node file behind it.
  predicate Recoverable(list: seq<FileEntry>, probe: bool) {
    probe ==> |list| <= MAX_RECOVERABLE_FILES && Addressable(list)
  }

  // sinit on sectors that hold a list.
  lemma RestartKeepsList(v: Vol, s: seq<Sector>, list: seq<FileEntry>, faults: set<nat>, probe: bool)
    requires |s| >= RESERVED_BLOCKS && DiskHolds(s, list)
    requires Restartable(s, faults, probe) && DirectoryReadable(s, faults)
    ensures var w := PowerCycled(v.(sectors := s), faults, probe);
      && Sound(w) && Backed(w) && Stored(w) == Files(w) == list && w.sectors == s && !w.isOpen
      && (Recoverable(list, probe) ==> w.writeBlock == EndOfFiles(list) + Reserve(s, list, probe))
      && (list != [] ==> w.table == LoadAll(s))
  {
    ListOn(s, list);
    StartsWithList(s, list, faults);
    hide PowerCycled, Files, Stored, StoredOn, DiskHolds, Behind, Sound, Restartable, DirectoryReadable, LoadAll,
         Reserve, EndOfFiles, Backed, StartList, StartCursor, Recoverable, FindsDirectory;
    RestartStep(v, s, faults, probe);
    var w := PowerCycled(v.(sectors := s), faults, probe);
    RestartCursor(v, s, faults, probe);
    if Recoverable(list, probe) {
      CursorBehindList(s, list, faults, probe);
    }
    BehindItself(w);
    IsBacked(w, list, list);
  }

  lemma StartsWithList(s: seq<Sector>, list: seq<FileEntry>, faults: set<nat>)
    requires DiskHolds(s, list) && DirectoryReadable(s, faults)
    ensures StartList(s, faults) == list && StoredFiles(s) == list
  {
    DiskHoldsOneSequence(s, list);
    hide LoadAll, BlockFromImage, Holds, StoredFiles;
  }

  lemma CursorBehindList(s: seq<Sector>, list: seq<FileEntry>, faults: set<nat>, probe: bool)
    requires DiskHolds(s, list) && DirectoryReadable(s, faults) && Restartable(s, faults, probe)
    requires Recoverable(list, probe)
    ensures StartCursor(s, faults, probe) == EndOfFiles(list) + Reserve(s, list, probe)
  {
    StartsWithList(s, list, faults);
    FirstBlockOfList(s, list);
    NothingReserved(s, probe);
    NoFilesEnd();
    assert FindsDirectory(s, faults) || list == [] by {
      hide LoadAll, BlockFromImage, Holds;
    }
    hide LoadAll, BlockFromImage, Holds, Probeable, LastCount, Scanned, StoredFiles, DirectoryReadable;
    if list != [] {
      FirstBlockBehind(s, list, faults, probe);
    }
    if probe {
      ScannedOnList(s, faults, list);
      NoFilesProbed(s, faults);
    }
  }

  lemma FirstBlockBehind(s: seq<Sector>, list: seq<FileEntry>, faults: set<nat>, probe: bool)
    requires DiskHolds(s, list) && list != [] && FindsDirectory(s, faults) && Restartable(s, faults, probe)
    requires StoredFiles(s) == list
    ensures probe ==> Scanned(s, faults).ok
    ensures |list| <= MAX_RECOVERABLE_FILES || EndOfFiles(list) <= RESERVED_BLOCKS + ScannedReserve(s, faults, probe)
    ensures RESERVED_BLOCKS <= EndOfFiles(list)
  {
    FirstBlockOfList(s, list);
    EndOfPlausible(list);
    hide LoadAll, BlockFromImage, Holds, Scanned, StoredFiles, FindsDirectory, EndOfFiles;
  }

  lemma PowerLossIsRestart(probe: bool, v: Vol, cut: Cut, faults: set<nat>)
    requires Sound(v) && Enabled(probe, v, PowerLoss(cut, faults))
    ensures Cuttable(v, cut) && Restartable(CutSectors(v, cut), faults, probe) && |v.sectors| >= RESERVED_BLOCKS
    ensures Step(probe, v, PowerLoss(cut, faults)) == PowerCycled(v.(sectors := CutSectors(v, cut)), faults, probe)
    ensures Reaches(v, PowerLoss(cut, faults)) ==> CutReaches(v, cut) && DirectoryReadable(CutSectors(v, cut), faults)
  {
    hide Cuttable, CutSectors, PowerCycled, Restartable, Files;
  }

  lemma PowerLossKeepsBacked(probe: bool, v: Vol, cut: Cut, faults: set<nat>)
    requires Sound(v) && Backed(v) && Enabled(probe, v, PowerLoss(cut, faults)) && Reaches(v, PowerLoss(cut, faults))
    ensures cut.InUpdate? ==> Files(v) != [] && LastIn(Files(v), v.fileNumber / 4)
    ensures cut.InErase? ==> Files(v) != []
    ensures var w := Step(probe, v, PowerLoss(cut, faults));
      && Backed(w) && Stored(w) == Files(w) == CutList(v, cut) && w.sectors == CutSectors(v, cut) && !w.isOpen
      && (Recoverable(Files(w), probe) ==> w.writeBlock == EndOfFiles(Files(w)) + Reserve(w.sectors, Files(w), probe))
      && (Files(w) != [] ==> w.table == LoadAll(w.sectors))
  {
    PowerLossIsRestart(probe, v, cut, faults);
    hide Files, Stored, DiskHolds, Plausible, CutSectors, CutList, StoredOn, Cuttable, Restartable, Backed,
         PowerCycled, LoadAll, Sound, EndOfFiles, Reserve, DirectoryReadable, CutReaches, Step, Enabled, Reaches;
    CutHoldsList(v, cut);
    RestartKeepsList(v, CutSectors(v, cut), CutList(v, cut), faults, probe);
  }

  /* ---------- every step ---------- */

  // The list on the cartridge after a step that reaches.
  ghost function NextStored(v: Vol, op: Op): seq<FileEntry>
    requires WritesBack(op) || op.EraseKeepingTmats? ==> Files(v) != []
    requires op.PowerLoss? && op.cut.InUpdate? ==> Files(v) != [] && LastIn(Files(v), v.fileNumber / 4)
    requires op.PowerLoss? && op.cut.InErase? ==> Files(v) != []
  {
    if op.PowerLoss? then CutList(v, op.cut)
    else if op.Erase? && op.ok then []
    else if op.EraseKeepingTmats? then KeptFile(Files(v))
    else if WritesBack(op) then Published(Files(v), NewSize(v, op), op.time)
    else Stored(v)
  }

  // A step that reaches keeps the cartridge at an earlier state of the list
  // in memory, in either configuration; an update, a close by sclose, an
  // erase or a restart makes both lists equal.
  lemma StepKeepsBacked(probe: bool, v: Vol, op: Op)
    requires Sound(v) && Backed(v) && Enabled(probe, v, op) && Reaches(v, op)
    ensures WritesBack(op) || op.EraseKeepingTmats? ==> Files(v) != []
    ensures op.PowerLoss? && op.cut.InUpdate? ==> Files(v) != [] && LastIn(Files(v), v.fileNumber / 4)
    ensures op.PowerLoss? && op.cut.InErase? ==> Files(v) != []
    ensures Backed(Step(probe, v, op)) && Stored(Step(probe, v, op)) == NextStored(v, op)
    ensures !LeavesDirectory(op) ==> Stored(Step(probe, v, op)) == Files(Step(probe, v, op))
  {
    hide Sound, Files, Stored, Enabled, Backed, CutSectors, CutList, Cuttable, DirectoryReadable, CutReaches,
         WriteBackReaches, ClosingBytes, Published, Step;
    if op.PowerLoss? {
      PowerLossKeepsBacked(probe, v, op.cut, op.faults);
    } else if WritesBack(op) {
      WriteBackOpStep(probe, v, op);
    } else if op.EraseKeepingTmats? || (op.Erase? && op.ok) {
      EraseOpStep(probe, v, op);
    } else {
      PlainStepKeepsBacked(probe, v, op);
    }
  }

  lemma StoresFiles(v: Vol, w: Vol)
    requires StoresTwoBlocks(v, w)
    ensures Files(v) != []
  {
  }

  lemma WriteBackOpStep(probe: bool, v: Vol, op: Op)
    requires Sound(v) && Backed(v) && Enabled(probe, v, op) && WritesBack(op) && WriteBackReaches(v)
    ensures Files(v) != [] && Backed(Step(probe, v, op))
    ensures Stored(Step(probe, v, op)) == Files(Step(probe, v, op)) == NextStored(v, op)
  {
    hide Sound, Files, Stored, Enabled, Backed, WriteBackReaches, ClosingBytes, Published, Step, StoresTwoBlocks;
    WriteBackStep(probe, v, op);
    StoresFiles(v, Step(probe, v, op));
    WriteBackKeepsBacked(v, Step(probe, v, op));
  }

  lemma EraseOpStep(probe: bool, v: Vol, op: Op)
    requires Sound(v) && Backed(v) && Enabled(probe, v, op) && (op.EraseKeepingTmats? || (op.Erase? && op.ok))
    ensures Files(v) != [] || op.Erase?
    ensures Backed(Step(probe, v, op))
    ensures Stored(Step(probe, v, op)) == Files(Step(probe, v, op)) == NextStored(v, op)
  {
    EnabledSteps(probe, v, op);
    hide Sound, Files, Stored, Backed, Erased, TmatsErased;
    if op.Erase? {
      EraseStep(v, true);
      EraseKeepsBacked(v);
    } else {
      TmatsEraseStep(v);
      TmatsEraseKeepsBacked(v);
    }
  }

  // And an update that does not reach leaves no such list.
  lemma UpdateReachesExactly(probe: bool, v: Vol, op: Op)
    requires Sound(v) && Backed(v) && Enabled(probe, v, op) && WritesBack(op)
    ensures Backed(Step(probe, v, op)) <==> WriteBackReaches(v)
  {
    WriteBackStep(probe, v, op);
    hide Sound, Files, Stored, Enabled, Backed, WriteBackReaches, Step, StoresTwoBlocks;
    WriteBackExactly(v, Step(probe, v, op));
  }

  /* ---------- every run ---------- */

  // Every step of the run reaches.
  ghost predicate AllReach(probe: bool, v: Vol, ops: seq<Op>)
    requires Possible(probe, v, ops)
    decreases |ops|
  {
    ops == [] || (Reaches(v, ops[0]) && AllReach(probe, Step(probe, v, ops[0]), ops[1..]))
  }

  // Over every such run, in both configurations, the cartridge holds a list
  // that is at most one recording behind for every file it lists.
  lemma {:induction false} RunKeepsBacked(probe: bool, v: Vol, ops: seq<Op>)
    requires Sound(v) && Backed(v) && Possible(probe, v, ops) && AllReach(probe, v, ops)
    ensures Sound(Run(probe, v, ops)) && Backed(Run(probe, v, ops))
    decreases |ops|
  {
    hide Sound, Enabled, Step, Backed, Reaches, Files, Stored;
    if ops != [] {
      StepIsSound(probe, v, ops[0]);
      StepKeepsBacked(probe, v, ops[0]);
      RunKeepsBacked(probe, Step(probe, v, ops[0]), ops[1..]);
    }
  }

  // Runs start with a blank cartridge, mounted in either configuration.
  lemma BlankStart(v: Vol, faults: set<nat>, probe: bool)
    requires |v.sectors| >= RESERVED_BLOCKS && DirectoryReadable(v.sectors, faults)
    requires forall i :: 1 <= i < RESERVED_BLOCKS ==> v.sectors[i] == ZERO_SECTOR
    ensures var w := PowerCycled(v, faults, probe);
      && Sound(w) && Backed(w) && Files(w) == Stored(w) == []
      && !w.isOpen && w.fileNumber == 0 && w.writeBlock == RESERVED_BLOCKS && w.sectors == v.sectors
  {
    BlankHoldsNothing(v.sectors);
    BlankStarts(v.sectors, faults, probe);
    assert v.(sectors := v.sectors) == v;
    hide LoadAll, BlockFromImage, PowerCycled, DirectoryReadable, StoredOn, Holds, DiskHolds, Restartable, Sound, Files,
         Stored, Backed, StartCursor;
    RestartKeepsList(v, v.sectors, [], faults, probe);
    RestartCursor(v, v.sectors, faults, probe);
    NoFilesNoNumber(PowerCycled(v, faults, probe));
  }

  lemma BlankStarts(sectors: seq<Sector>, faults: set<nat>, probe: bool)
    requires |sectors| >= RESERVED_BLOCKS
    requires forall i :: 1 <= i < RESERVED_BLOCKS ==> sectors[i] == ZERO_SECTOR
    ensures Restartable(sectors, faults, probe) && StartCursor(sectors, faults, probe) == RESERVED_BLOCKS
  {
    ZeroSectorIsEmpty();
    hide LoadAll, BlockFromImage, Holds, Plausible, Scanned, StoredFiles;
    assert !FindsDirectory(sectors, faults);
  }

  lemma StoredIsOn(w: Vol)
    ensures Stored(w) == StoredOn(w.sectors)
  {
  }

  lemma {:induction false} NothingReserved(sectors: seq<Sector>, probe: bool)
    ensures Reserve(sectors, [], probe) == 0
  {
    NoneCounted(sectors, []);
  }

  lemma NoFilesNoNumber(w: Vol)
    requires Sound(w) && Files(w) == [] && !w.isOpen
    ensures w.fileNumber == 0
  {
    hide Holds, Files;
  }
}
