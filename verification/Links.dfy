// The directory blocks as a doubly linked list, in memory and on the cartridge.
module Links {
  import opened Bytes
  import opened DirectoryFormat
  import opened Directory
  import opened Volume
  import opened VolumeInvariant
  import opened Recovery
  import opened Crash
  import opened NodeRecovery
  import opened Runs
  import opened TornErase
  import opened Backing
  import opened Tally

  /* ---------- operations on the table ---------- */

  predicate SameLinks(t: seq<DirBlock>, u: seq<DirBlock>) {
    && |t| == |u|
    && forall j :: 0 <= j < |t| ==> t[j].forwardLink == u[j].forwardLink && t[j].reverseLink == u[j].reverseLink
  }

  lemma SameLinksSameChain(t: seq<DirBlock>, u: seq<DirBlock>, n: nat)
    requires SameLinks(t, u)
    ensures Linked(t, n) == Linked(u, n) && SelfTerminated(t, n) == SelfTerminated(u, n)
  {
  }

  // sopen of file n makes the chain end at its block, whatever the block
  // before it said.
  lemma OpenLinks(table: seq<DirBlock>, n: nat, e: FileEntry)
    requires |table| == MAX_STANAG_BLOCKS && n < MAX_FILES && table[n / 4].numberOfFileEntries < 4
    requires Linked(table, n)
    ensures Linked(OpenedTable(table, n, e), n + 1) && SelfTerminated(OpenedTable(table, n, e), n + 1)
  {
    var t, b := OpenedTable(table, n, e), n / 4;
    assert (n + 1 - 1) / 4 == b;
    assert n > 0 ==> (n - 1) / 4 == if n % 4 == 0 then b - 1 else b;
    forall j | 0 <= j < b ensures t[j].forwardLink == j + 2 {
    }
    forall j | 0 <= j <= b ensures t[j].reverseLink == if j == 0 then 1 else j {
    }
  }

  lemma UpdateKeepsLinks(table: seq<DirBlock>, n: nat, total: U64, time: Text8)
    requires |table| == MAX_STANAG_BLOCKS && n < MAX_NUM_FILES && 1 <= table[n / 4].numberOfFileEntries <= 4
    ensures SameLinks(UpdatedTable(table, n, total, time), table)
  {
  }

  lemma BlankKeepsLinks(table: seq<DirBlock>, n: nat)
    requires |table| == MAX_STANAG_BLOCKS && n < MAX_NUM_FILES
    ensures SameLinks(BlankedTable(table, n), table)
  {
  }

  /* ---------- the chain on the cartridge ---------- */

  // The link of a block depends only on the block's place, so that all blocks
  // before the last one agree.
  predicate LinkedBlock(block: DirBlock, j: nat) {
    block.forwardLink == j + 2 && block.reverseLink == if j == 0 then 1 else j
  }

  // Blocks before b - 2 are linked: the chain to block b hangs on block b - 2.
  lemma ChainTo(e: seq<DirBlock>, n: nat, b: nat)
    requires |e| == MAX_STANAG_BLOCKS && b < MAX_STANAG_BLOCKS && 4 * b < n <= 4 * b + 4 && n <= MAX_NUM_FILES
    requires forall j :: 0 <= j < b - 2 ==> LinkedBlock(e[j], j)
    requires b >= 2 ==> e[b - 2].reverseLink == if b == 2 then 1 else b - 2
    requires b >= 1 ==> LinkedBlock(e[b - 1], b - 1)
    requires e[b].forwardLink == b + 1 && e[b].reverseLink == if b == 0 then 1 else b
    ensures Linked(e, n) <==> b < 2 || e[b - 2].forwardLink == b
    ensures SelfTerminated(e, n)
  {
    assert (n - 1) / 4 == b;
  }

  // What a chain of n files says about its blocks.
  lemma ChainUpTo(d: seq<DirBlock>, n: nat, b: nat)
    requires |d| == MAX_STANAG_BLOCKS && b < MAX_STANAG_BLOCKS && 4 * (b - 1) <= n <= MAX_NUM_FILES
    requires Linked(d, n)
    ensures forall j :: 0 <= j < b - 2 ==> LinkedBlock(d[j], j)
    ensures b >= 2 ==> d[b - 2].reverseLink == if b == 2 then 1 else b - 2
    ensures b >= 2 && 4 * (b - 1) < n ==> d[b - 2].forwardLink == b
    ensures 4 * b < n <= 4 * b + 4 && SelfTerminated(d, n) ==>
      (b >= 1 ==> LinkedBlock(d[b - 1], b - 1))
      && d[b].forwardLink == b + 1 && d[b].reverseLink == if b == 0 then 1 else b
  {
    if n > 0 {
      var last := (n - 1) / 4;
      if 4 * b < n <= 4 * b + 4 {
        assert last == b;
      }
    }
  }

  lemma LinksSurvive(block: DirBlock)
    ensures LoadBlock(StoreBlock(block)).forwardLink == block.forwardLink
    ensures LoadBlock(StoreBlock(block)).reverseLink == block.reverseLink
  {
    LoadsWhatWasStored(block);
  }

  // Links of the directory on the cartridge after the two block writes.
  lemma LinksAfterStore(sectors: seq<Sector>, table: seq<DirBlock>, b: nat)
    requires |sectors| >= RESERVED_BLOCKS && |table| == MAX_STANAG_BLOCKS && b < MAX_STANAG_BLOCKS
    ensures var d, e := LoadAll(sectors), LoadAll(StoredCurrent(sectors, table, b));
      && |e| == |d| == MAX_STANAG_BLOCKS
      && (forall j :: 0 <= j < b - 1 ==> e[j].forwardLink == d[j].forwardLink && e[j].reverseLink == d[j].reverseLink)
      && (b > 0 ==> e[b - 1].forwardLink == table[b - 1].forwardLink
                    && e[b - 1].reverseLink == table[b - 1].reverseLink)
      && e[b].forwardLink == table[b].forwardLink && e[b].reverseLink == table[b].reverseLink
  {
    LoadsAfterStore(sectors, table, b);
    LinksSurvive(table[b]);
    if b > 0 {
      LinksSurvive(table[b - 1]);
    }
    hide StoredCurrent, StoreBlock, LoadBlock, LoadAll;
  }

  // After a write-back the chain on the cartridge reaches the current block b
  // exactly when the first block that was not written links forward already:
  // the stored list reaches into block b - 1, or sopen's link to it did.
  lemma LinksAfterWriteBack(sectors: seq<Sector>, table: seq<DirBlock>, files: seq<FileEntry>, stored: seq<FileEntry>,
                            b: nat)
    requires Writable(table, files) && LastIn(files, b) && DiskHolds(sectors, stored)
    requires Linked(table, |files|) && SelfTerminated(table, |files|) && Linked(LoadAll(sectors), |stored|)
    requires 4 * (b - 1) <= |stored| <= |files|
    ensures Linked(LoadAll(StoredCurrent(sectors, table, b)), |files|)
       <==> 4 * (b - 1) < |stored| || b <= 1 || LoadAll(sectors)[b - 2].forwardLink == b
    ensures SelfTerminated(LoadAll(StoredCurrent(sectors, table, b)), |files|)
  {
    assert |table| == MAX_STANAG_BLOCKS && |files| <= MAX_NUM_FILES;
    hide StoredCurrent, LoadAll, Holds, PaddedEntry, BlockFromImage, Linked, SelfTerminated;
    LinksAfterStore(sectors, table, b);
    ChainUpTo(table, |files|, b);
    ChainUpTo(LoadAll(sectors), |stored|, b);
    ChainTo(LoadAll(StoredCurrent(sectors, table, b)), |files|, b);
  }

  // Between the two writes: the chain ends in the block before the current
  // one, or goes on into the current block as it was.
  lemma LinksAfterFirstWrite(sectors: seq<Sector>, table: seq<DirBlock>, b: nat)
    requires |sectors| >= RESERVED_BLOCKS && |table| == MAX_STANAG_BLOCKS && 0 < b < MAX_STANAG_BLOCKS
    ensures var d, e := LoadAll(sectors), LoadAll(StoredPrevious(sectors, table, b));
      && |e| == |d| == MAX_STANAG_BLOCKS
      && (forall j :: 0 <= j < MAX_STANAG_BLOCKS && j != b - 1 ==> e[j] == d[j])
      && e[b - 1].forwardLink == table[b - 1].forwardLink && e[b - 1].reverseLink == table[b - 1].reverseLink
  {
    LoadsAfterStore(sectors, table, b);
    LinksSurvive(table[b - 1]);
    hide StoredPrevious, StoreBlock, LoadBlock, LoadAll;
  }

  /* ---------- the chain in memory ---------- */

  // The list in memory is chained from address 1, and while a file is open
  // the chain ends at its block.
  ghost predicate Chained(v: Vol) {
    Linked(v.table, |Files(v)|) && (v.isOpen ==> SelfTerminated(v.table, |Files(v)|))
  }

  // What sinit loads is chained.
  ghost predicate LoadsChain(v: Vol, op: Op) {
    op.PowerLoss? ==>
      Cuttable(v, op.cut) &&
      var s := CutSectors(v, op.cut);
      |s| >= RESERVED_BLOCKS && (FindsDirectory(s, op.faults) ==> Linked(LoadAll(s), |StoredOn(s)|))
  }

  predicate KeepsLinks(op: Op) {
    !op.Open? && !op.Erase? && !op.EraseKeepingTmats? && !op.PowerLoss?
  }

  lemma SClosedLinks(v: Vol, increment: bool, fill: nat, btmFill: U32, blocksRecorded: U32, time: Text8)
    requires CanUpdate(v) && Sound(v) && v.isOpen
    ensures SameLinks(SClosed(v, increment, fill, btmFill, blocksRecorded, true, time).table, v.table)
  {
    var blanked := v.(table := BlankedTable(v.table, v.fileNumber),
                      totalBytes := ClosingBytes(v.totalBytes, fill, btmFill, blocksRecorded));
    BlankKeepsLinks(v.table, v.fileNumber);
    BlankedTableHolds(v.table, Files(v));
    assert CanUpdate(blanked) by {
      hide ClosingBytes;
    }
    UpdateKeepsLinks(blanked.table, v.fileNumber, blanked.totalBytes, time);
    assert SClosed(v, increment, fill, btmFill, blocksRecorded, true, time).table
        == UpdatedTable(blanked.table, v.fileNumber, blanked.totalBytes, time) by {
      hide ClosingBytes, BlankedTable, UpdatedTable, StoredCurrent, Blocks, Int32, Sound;
    }
    hide Sound, UpdatedTable, BlankedTable, ClosingBytes;
  }

  lemma ClosedLinks(v: Vol, increment: bool)
    requires |v.table| == MAX_STANAG_BLOCKS && v.fileNumber < MAX_NUM_FILES
    ensures SameLinks(EmergencyClosed(v, increment).table, v.table)
  {
    BlankKeepsLinks(v.table, v.fileNumber);
    hide BlankedTable, SameLinks;
  }

  lemma StepKeepsLinks(probe: bool, v: Vol, op: Op)
    requires Sound(v) && Enabled(probe, v, op) && KeepsLinks(op)
    ensures SameLinks(Step(probe, v, op).table, v.table)
  {
    EnabledSteps(probe, v, op);
    assert v.isOpen;
    SameLinksReflexive(v.table);
    hide Sound, UpdatedTable, BlankedTable, StoredCurrent, SClosed, EmergencyClosed, NodeSectors, SameLinks, Blocks,
         ClosingBytes, CanUpdate;
    match op
    case Publish(offset, pktLen, _, _, time) =>
      UpdateLinks(v, (offset + pktLen) % TWO64, time);
    case PublishAll(blocks, _, _, time) => UpdateLinks(v, blocks * 512, time);
    case SClose(increment, fill, btmFill, blocks, time) => SClosedLinks(v, increment, fill, btmFill, blocks, time);
    case Stop(increment) => ClosedLinks(v, increment);
    case StopWithNodes(increment, _, _, _) => ClosedLinks(v, increment);
    case Capture(_, _) =>
  }

  lemma SameLinksReflexive(t: seq<DirBlock>)
    ensures SameLinks(t, t)
  {
  }

  lemma UpdateLinks(v: Vol, total: U64, time: Text8)
    requires CanUpdate(v)
    ensures SameLinks(UpdatedTable(v.table, v.fileNumber, total, time), v.table)
  {
    UpdateKeepsLinks(v.table, v.fileNumber, total, time);
  }

  lemma FilesStayCounted(probe: bool, v: Vol, op: Op)
    requires Sound(v) && Enabled(probe, v, op) && KeepsLinks(op)
    ensures |Files(Step(probe, v, op))| == |Files(v)|
  {
    StepKeepsSound(probe, v, op);
    hide Sound, Files, Step, Enabled, Published, ClosingBytes;
    match op
    case Publish(offset, pktLen, _, _, time) => PublishedShape(Files(v), (offset + pktLen) % TWO64, time);
    case PublishAll(blocks, _, _, time) => PublishedShape(Files(v), blocks * 512, time);
    case SClose(_, fill, btmFill, blocks, time) =>
      PublishedShape(Files(v), ClosingBytes(v.totalBytes, fill, btmFill, blocks), time);
    case _ =>
  }

  lemma OpenKeepsChain(v: Vol, name: Text56, date: Text8, time: Text8)
    requires Sound(v) && (v.isOpen || v.fileNumber < MAX_FILES) && Chained(v)
    requires IsPadded(name) && IsPadded(date) && IsPadded(time)
    ensures (v.isOpen || CanOpen(v)) && Chained(Opened(v, name, date, time))
  {
    OpenStep(v, name, date, time);
    if !v.isOpen {
      var e := NewEntry(name, v.writeBlock, date, time);
      assert Opened(v, name, date, time).table == OpenedTable(v.table, v.fileNumber, e);
      assert |Files(v)| == v.fileNumber by {
        hide Files, Opened;
      }
      OpenLinks(v.table, v.fileNumber, e);
      hide Files, Linked, SelfTerminated, Opened, OpenedTable, Sound;
    }
  }

  lemma RestartKeepsChain(probe: bool, v: Vol, op: Op)
    requires Sound(v) && Enabled(probe, v, op) && op.PowerLoss?
    ensures Chained(Step(probe, v, op)) <==> LoadsChain(v, op)
  {
    PowerLossIsRestart(probe, v, op.cut, op.faults);
    StartsWithStored(CutSectors(v, op.cut), op.faults);
    hide Sound, Files, CutSectors, Cuttable, Restartable, PowerCycled, FindsDirectory, StoredOn, LoadAll, Linked,
         SelfTerminated, StartList, Enabled, Step;
    RestartStep(v, CutSectors(v, op.cut), op.faults, probe);
    NothingIsLinked(Step(probe, v, op).table);
    NothingIsLinked(LoadAll(CutSectors(v, op.cut)));
  }

  lemma StartsWithStored(sectors: seq<Sector>, faults: set<nat>)
    requires |sectors| >= RESERVED_BLOCKS
    ensures StartList(sectors, faults) == if FindsDirectory(sectors, faults) then StoredOn(sectors) else []
  {
  }

  lemma NothingIsLinked(t: seq<DirBlock>)
    ensures Linked(t, 0)
  {
  }

  // Every step keeps the chain in memory, whatever the updates write.
  lemma StepKeepsChain(probe: bool, v: Vol, op: Op)
    requires Sound(v) && Chained(v) && Enabled(probe, v, op) && LoadsChain(v, op)
    ensures Chained(Step(probe, v, op))
  {
    if op.PowerLoss? {
      hide Sound, Chained, Enabled, LoadsChain, Step;
      RestartKeepsChain(probe, v, op);
    } else if op.Open? {
      hide Sound, Chained, Opened;
      OpenKeepsChain(v, op.name, op.date, op.time);
    } else if op.Erase? || op.EraseKeepingTmats? {
      ErasedIsChained(probe, v, op);
    } else {
      OpenAfter(probe, v, op);
      assert v.isOpen;
      StepKeepsLinks(probe, v, op);
      FilesStayCounted(probe, v, op);
      hide Sound, Files, Step, Enabled, Linked, SelfTerminated, SameLinks;
      SameLinksSameChain(Step(probe, v, op).table, v.table, |Files(v)|);
    }
  }

  lemma ErasedIsChained(probe: bool, v: Vol, op: Op)
    requires Sound(v) && Enabled(probe, v, op) && (op.Erase? || op.EraseKeepingTmats?)
    ensures Chained(Step(probe, v, op))
  {
    OpenAfter(probe, v, op);
    EnabledSteps(probe, v, op);
    if op.Erase? {
      hide Erased, Files, Sound;
      EraseStep(v, op.ok);
    } else {
      TmatsEraseStep(v);
      TmatsTableHoldsOneFile(v.table, Files(v));
      assert TmatsErased(v).table == TmatsTable(v.table);
      hide TmatsErased, TmatsTable, Files, Sound, Linked, SelfTerminated;
    }
  }

  // While a file is open, forward links from address 1 on visit every block
  // up to the current one, in order, and stop there.
  ghost predicate VisitsAllBlocks(v: Vol) {
    v.isOpen ==> Walk(v.table, 1, MAX_STANAG_BLOCKS - 1) == seq(v.fileNumber / 4 + 1, i => 1 + i)
  }

  lemma ChainVisitsAllBlocks(v: Vol)
    requires Sound(v) && Chained(v)
    ensures VisitsAllBlocks(v)
  {
    if v.isOpen {
      assert |v.table| == MAX_STANAG_BLOCKS && |Files(v)| == v.fileNumber + 1 <= MAX_FILES;
      hide Sound, Files, Linked, SelfTerminated;
      ForwardLinksVisitEveryBlock(v.table, |Files(v)|);
    }
  }

  /* ---------- the chain on the cartridge ---------- */

  ghost predicate CartridgeChained(v: Vol) {
    |v.sectors| >= RESERVED_BLOCKS && Linked(LoadAll(v.sectors), |Stored(v)|)
  }

  ghost predicate CartridgeEnds(v: Vol) {
    |v.sectors| >= RESERVED_BLOCKS && SelfTerminated(LoadAll(v.sectors), |Stored(v)|)
  }

  // The cartridge's chain reaches the block before the current one.
  predicate LinksReach(v: Vol) {
    4 * (v.fileNumber / 4 - 1) < |Stored(v)| || v.fileNumber / 4 <= 1
  }

  predicate ChainReaches(v: Vol, op: Op) {
    WritesBack(op) || (op.PowerLoss? && op.cut.InUpdate?) ==> LinksReach(v)
  }

  // No update is cut off that starts a new directory block.
  predicate EndReaches(v: Vol, op: Op) {
    op.PowerLoss? && op.cut.InUpdate? ==> 4 * (v.fileNumber / 4) < |Stored(v)| || v.fileNumber / 4 == 0
  }

  lemma SameCartridgeChain(v: Vol, w: Vol)
    requires Untouched(v.sectors, w.sectors) && Stored(w) == Stored(v) && CartridgeChained(v)
    ensures CartridgeChained(w) && (CartridgeEnds(v) ==> CartridgeEnds(w))
  {
    LoadsDespiteDirectory(v.sectors, w.sectors);
    hide LoadAll, Stored, Linked, SelfTerminated;
  }

  lemma LoadsDespiteDirectory(sectors: seq<Sector>, others: seq<Sector>)
    requires Untouched(sectors, others) && |sectors| >= RESERVED_BLOCKS
    ensures LoadAll(sectors) == LoadAll(others)
  {
    hide LoadBlock;
    assert LoadAll(sectors) == LoadAll(others);
  }

  lemma WriteBackLinks(v: Vol, w: Vol)
    requires Backed(v) && StoresTwoBlocks(v, w) && LinksReach(v) && CartridgeChained(v)
    requires Linked(w.table, |Files(w)|) && SelfTerminated(w.table, |Files(w)|)
    requires Stored(w) == Files(w)
    ensures CartridgeChained(w) && CartridgeEnds(w)
  {
    var b := v.fileNumber / 4;
    SoundIsWritable(w);
    LastInBlock(Files(w));
    BehindNoLonger(Stored(v), Files(v));
    hide Sound, Files, Stored, Writable, Linked, SelfTerminated, LoadAll, StoredCurrent, DiskHolds;
    LinksAfterWriteBack(v.sectors, w.table, Files(w), Stored(v), b);
  }

  lemma WriteBackKeepsCartridgeChain(probe: bool, v: Vol, op: Op)
    requires Sound(v) && Backed(v) && Enabled(probe, v, op) && WritesBack(op) && Reaches(v, op) && LinksReach(v)
    requires Chained(v) && CartridgeChained(v)
    ensures CartridgeChained(Step(probe, v, op)) && CartridgeEnds(Step(probe, v, op))
  {
    hide *;
    var w := Step(probe, v, op);
    WriteBackShape(probe, v, op);
    WriteBackStep(probe, v, op);
    StepKeepsBacked(probe, v, op);
    StepKeepsLinks(probe, v, op);
    FilesStayCounted(probe, v, op);
    SameLinksSameChain(w.table, v.table, |Files(v)|);
    WriteBackLinks(v, w);
  }

  lemma WriteBackShape(probe: bool, v: Vol, op: Op)
    requires Enabled(probe, v, op) && WritesBack(op) && Reaches(v, op) && Chained(v)
    ensures v.isOpen && KeepsLinks(op) && WriteBackReaches(v) && !LeavesDirectory(op)
    ensures Linked(v.table, |Files(v)|) && SelfTerminated(v.table, |Files(v)|)
  {
    hide Linked, SelfTerminated, Files, WriteBackReaches;
  }

  // The chain between the two writes of an update.
  lemma TornUpdateLinks(v: Vol, total: U64, time: Text8)
    requires Sound(v) && Backed(v) && Cuttable(v, InUpdate(total, time)) && WriteBackReaches(v)
    requires Chained(v) && CartridgeChained(v) && LinksReach(v)
    ensures Files(v) != [] && LastIn(Files(v), v.fileNumber / 4)
    ensures var cut := InUpdate(total, time);
      && Linked(LoadAll(CutSectors(v, cut)), |CutList(v, cut)|)
      && (CartridgeEnds(v) ==>
            (SelfTerminated(LoadAll(CutSectors(v, cut)), |CutList(v, cut)|)
             <==> 4 * (v.fileNumber / 4) < |Stored(v)| || v.fileNumber / 4 == 0))
  {
    hide Sound, Files, Stored, LoadAll, StoredPrevious, UpdatedTable, DiskHolds, Behind, Published, SameLinks, Linked,
         SelfTerminated, WriteBackReaches;
    OpenCanUpdate(v);
    LastInBlock(Files(v));
    PublishedShape(Files(v), total, time);
    BehindNoLonger(Stored(v), Files(v));
    var b, stored, files := v.fileNumber / 4, Stored(v), Files(v);
    var table := UpdatedTable(v.table, v.fileNumber, total, time);
    UpdateKeepsLinks(v.table, v.fileNumber, total, time);
    SameLinksSameChain(table, v.table, |files|);
    if b > 0 {
      LinksAfterFirstWrite(v.sectors, table, b);
      TornChain(table, LoadAll(v.sectors), LoadAll(StoredPrevious(v.sectors, table, b)), |files|, |stored|, b);
    } else {
      NoPreviousBlock(v.sectors, table);
    }
  }

  lemma NoPreviousBlock(sectors: seq<Sector>, table: seq<DirBlock>)
    requires |table| == MAX_STANAG_BLOCKS
    ensures StoredPrevious(sectors, table, 0) == sectors
  {
  }

  lemma TornChain(table: seq<DirBlock>, d: seq<DirBlock>, e: seq<DirBlock>, n: nat, stored: nat, b: nat)
    requires |table| == |d| == |e| == MAX_STANAG_BLOCKS && 0 < b < MAX_STANAG_BLOCKS && 4 * b < n <= 4 * b + 4
    requires Linked(table, n) && Linked(d, stored) && stored <= n <= MAX_FILES && (4 * (b - 1) < stored || b == 1)
    requires forall j :: 0 <= j < MAX_STANAG_BLOCKS && j != b - 1 ==> e[j] == d[j]
    requires e[b - 1].forwardLink == table[b - 1].forwardLink && e[b - 1].reverseLink == table[b - 1].reverseLink
    ensures var m := if stored >= 4 * b then stored else 4 * b;
      Linked(e, m) && (SelfTerminated(d, stored) ==> (SelfTerminated(e, m) <==> 4 * b < stored))
  {
    assert (n - 1) / 4 == b;
    if 4 * b < stored {
      assert (stored - 1) / 4 == b;
    } else {
      assert (4 * b - 1) / 4 == b - 1;
      if stored > 0 {
        assert (stored - 1) / 4 >= b - 1 || b == 1;
      }
    }
  }

  lemma TornEraseLinks(v: Vol, k: nat)
    requires Sound(v) && Cuttable(v, InErase(k)) && k > 0
    ensures |v.sectors| >= RESERVED_BLOCKS && Files(v) != [] && |CutList(v, InErase(k))| == 1
    ensures var t := LoadAll(CutSectors(v, InErase(k))); Linked(t, 1) && SelfTerminated(t, 1)
  {
    hide LoadAll, TmatsTable, StoredAll, Files, Writable, Plausible, Linked, SelfTerminated, Holds, Ordered,
         PaddedEntry;
    KeptIsWritable(v);
    var t := TmatsTable(v.table);
    TmatsTableHoldsOneFile(v.table, Files(v));
    FirstBlockLinks(v.sectors, t, k);
  }

  lemma {:induction false} FirstBlockLinks(sectors: seq<Sector>, table: seq<DirBlock>, k: nat)
    requires |sectors| >= RESERVED_BLOCKS && |table| == MAX_STANAG_BLOCKS && 0 < k <= MAX_STANAG_BLOCKS
    requires Linked(table, 1) && SelfTerminated(table, 1)
    ensures var t := LoadAll(StoredAll(sectors, table, k)); Linked(t, 1) && SelfTerminated(t, 1)
  {
    hide LoadAll, StoredAll, LoadBlock, StoreBlock;
    LoadsAfterErase(sectors, table, k);
    LinksSurvive(table[0]);
    var t := LoadAll(StoredAll(sectors, table, k));
    assert t[0] == LoadBlock(StoreBlock(table[0]));
    OneBlockChain(table);
    OneBlockChain(t);
  }

  lemma OneBlockChain(t: seq<DirBlock>)
    requires |t| == MAX_STANAG_BLOCKS
    ensures Linked(t, 1) && SelfTerminated(t, 1) <==> t[0].forwardLink == 1 && t[0].reverseLink == 1
  {
  }

  lemma PowerLossKeepsCartridgeChain(probe: bool, v: Vol, op: Op)
    requires Sound(v) && Backed(v) && Enabled(probe, v, op) && op.PowerLoss? && Reaches(v, op) && ChainReaches(v, op)
    requires Chained(v) && CartridgeChained(v)
    ensures CartridgeChained(Step(probe, v, op)) && LoadsChain(v, op)
    ensures CartridgeEnds(v) ==> (CartridgeEnds(Step(probe, v, op)) <==> EndReaches(v, op))
  {
    hide Sound, Files, Stored, Step, DiskHolds, CutSectors, CutList, Cuttable, Enabled, Backed, Chained,
         LoadAll, Linked, SelfTerminated, WriteBackReaches, LinksReach, StoredOn, DirectoryReadable, FindsDirectory;
    PowerLossKeepsBacked(probe, v, op.cut, op.faults);
    CutHoldsList(v, op.cut);
    var w, list := Step(probe, v, op), CutList(v, op.cut);
    assert |v.sectors| >= RESERVED_BLOCKS;
    assert w.sectors == CutSectors(v, op.cut) && Stored(w) == list && StoredOn(w.sectors) == list;
    match op.cut
    case AtRest => AtRestLinks(v);
    case InUpdate(total, time) => TornUpdateLinks(v, total, time);
    case InErase(k) =>
      if k == 0 {
        AtRestLinks(v);
      } else {
        TornEraseLinks(v, k);
      }
  }

  lemma AtRestLinks(v: Vol)
    ensures CutSectors(v, AtRest) == v.sectors && CutList(v, AtRest) == Stored(v)
    ensures Cuttable(v, InErase(0)) ==> CutSectors(v, InErase(0)) == v.sectors
    ensures Files(v) != [] ==> CutList(v, InErase(0)) == Stored(v)
  {
    hide Files, Stored;
  }

  lemma EraseKeepsCartridgeChain(probe: bool, v: Vol, op: Op)
    requires Sound(v) && Backed(v) && Enabled(probe, v, op) && Reaches(v, op)
    requires op.EraseKeepingTmats? || (op.Erase? && op.ok)
    ensures CartridgeChained(Step(probe, v, op)) && CartridgeEnds(Step(probe, v, op))
  {
    var w := Step(probe, v, op);
    hide Sound, Files, Stored, Backed, LoadAll, TmatsTable, StoredAll, Linked, SelfTerminated, InitTable;
    StepKeepsBacked(probe, v, op);
    StepIsSound(probe, v, op);
    InvSectors(w);
    if op.EraseKeepingTmats? {
      EnabledSteps(probe, v, op);
      TornEraseLinks(v, MAX_STANAG_BLOCKS);
      TmatsEraseSectors(v);
    } else {
      NothingIsLinked(LoadAll(w.sectors));
      NothingEnds(LoadAll(w.sectors));
    }
  }

  lemma TmatsEraseSectors(v: Vol)
    requires Cuttable(v, InErase(MAX_STANAG_BLOCKS))
    ensures TmatsErased(v).sectors == CutSectors(v, InErase(MAX_STANAG_BLOCKS))
  {
    hide TmatsTable, StoredAll;
  }

  lemma NothingEnds(t: seq<DirBlock>)
    ensures SelfTerminated(t, 0)
  {
  }

  // Every step that reaches keeps the chain on the cartridge; and unless it is
  // an update cut off when it starts a new directory block, the chain there
  // still ends in a block that links to itself.
  lemma StepKeepsCartridgeChain(probe: bool, v: Vol, op: Op)
    requires Sound(v) && Backed(v) && Enabled(probe, v, op) && Reaches(v, op) && ChainReaches(v, op)
    requires Chained(v) && CartridgeChained(v)
    ensures CartridgeChained(Step(probe, v, op)) && LoadsChain(v, op)
    ensures CartridgeEnds(v) ==> (CartridgeEnds(Step(probe, v, op)) <==> EndReaches(v, op))
    ensures WritesBack(op) ==> CartridgeEnds(Step(probe, v, op))
  {
    hide Sound, Files, Stored, Step, Enabled, Backed, Chained, CartridgeChained, CartridgeEnds, CutSectors, Cuttable,
         WriteBackReaches, LinksReach, DirectoryReadable, FindsDirectory, CutReaches, StoredOn, LoadAll, Linked;
    if op.PowerLoss? {
      PowerLossKeepsCartridgeChain(probe, v, op);
    } else if WritesBack(op) {
      WriteBackKeepsCartridgeChain(probe, v, op);
    } else if op.EraseKeepingTmats? || (op.Erase? && op.ok) {
      EraseKeepsCartridgeChain(probe, v, op);
    } else {
      PlainStepKeepsBacked(probe, v, op);
      LeavesDirectoryUntouched(probe, v, op);
      SameCartridgeChain(v, Step(probe, v, op));
    }
  }

  // A reader of the cartridge visits every block of the stored list.
  ghost predicate VisitsStoredBlocks(v: Vol) {
    && |v.sectors| >= RESERVED_BLOCKS
    && (Stored(v) != [] ==>
          Walk(LoadAll(v.sectors), 1, MAX_STANAG_BLOCKS - 1) == seq((|Stored(v)| - 1) / 4 + 1, i => 1 + i))
  }

  lemma CartridgeVisitsStoredBlocks(v: Vol)
    requires Backed(v) && CartridgeChained(v) && CartridgeEnds(v)
    ensures VisitsStoredBlocks(v)
  {
    assert |Stored(v)| <= MAX_NUM_FILES;
    hide Stored, Files, LoadAll, Linked, SelfTerminated;
    if Stored(v) != [] {
      ForwardLinksVisitEveryBlock(LoadAll(v.sectors), |Stored(v)|);
    }
  }

  /* ---------- every run ---------- */

  ghost predicate AllLoadChains(probe: bool, v: Vol, ops: seq<Op>)
    requires Possible(probe, v, ops)
    decreases |ops|
  {
    ops == [] || (LoadsChain(v, ops[0]) && AllLoadChains(probe, Step(probe, v, ops[0]), ops[1..]))
  }

  // Over every run, whatever updates reach the cartridge, the blocks in use
  // are doubly linked in memory; of a restart only its own cartridge counts.
  lemma {:induction false} RunKeepsChain(probe: bool, v: Vol, ops: seq<Op>)
    requires Sound(v) && Chained(v) && Possible(probe, v, ops) && AllLoadChains(probe, v, ops)
    ensures Chained(Run(probe, v, ops)) && VisitsAllBlocks(Run(probe, v, ops))
    decreases |ops|
  {
    hide Sound, Chained, Enabled, Step, LoadsChain, VisitsAllBlocks;
    if ops == [] {
      ChainVisitsAllBlocks(v);
    } else {
      StepIsSound(probe, v, ops[0]);
      StepKeepsChain(probe, v, ops[0]);
      RunKeepsChain(probe, Step(probe, v, ops[0]), ops[1..]);
    }
  }

  ghost predicate AllChainsReach(probe: bool, v: Vol, ops: seq<Op>)
    requires Possible(probe, v, ops)
    decreases |ops|
  {
    ops == [] || (ChainReaches(v, ops[0]) && AllChainsReach(probe, Step(probe, v, ops[0]), ops[1..]))
  }

  // Over every run whose steps reach, the cartridge is chained too, and what
  // every restart loads.
  lemma {:induction false} RunKeepsCartridgeChain(probe: bool, v: Vol, ops: seq<Op>)
    requires Sound(v) && Backed(v) && Chained(v) && CartridgeChained(v)
    requires Possible(probe, v, ops) && AllReach(probe, v, ops) && AllChainsReach(probe, v, ops)
    ensures AllLoadChains(probe, v, ops)
    ensures Chained(Run(probe, v, ops)) && CartridgeChained(Run(probe, v, ops))
    decreases |ops|
  {
    hide Sound, Backed, Chained, CartridgeChained, CartridgeEnds, Enabled, Step, LoadsChain, Reaches, ChainReaches,
         EndReaches, Files, Stored;
    if ops != [] {
      StepIsSound(probe, v, ops[0]);
      StepKeepsBacked(probe, v, ops[0]);
      StepKeepsCartridgeChain(probe, v, ops[0]);
      StepKeepsChain(probe, v, ops[0]);
      RunKeepsCartridgeChain(probe, Step(probe, v, ops[0]), ops[1..]);
    }
  }

  ghost predicate AllEndsReach(probe: bool, v: Vol, ops: seq<Op>)
    requires Possible(probe, v, ops)
    decreases |ops|
  {
    ops == [] || (EndReaches(v, ops[0]) && AllEndsReach(probe, Step(probe, v, ops[0]), ops[1..]))
  }

  // And a reader of the cartridge visits every block of the list and stops at
  // its last one, if no update was cut off that starts a new block.
  lemma {:induction false} CartridgeVisitsInEveryRun(probe: bool, v: Vol, ops: seq<Op>)
    requires Sound(v) && Backed(v) && Chained(v) && CartridgeChained(v) && CartridgeEnds(v)
    requires Possible(probe, v, ops) && AllReach(probe, v, ops) && AllChainsReach(probe, v, ops)
    requires AllEndsReach(probe, v, ops)
    ensures CartridgeEnds(Run(probe, v, ops)) && VisitsStoredBlocks(Run(probe, v, ops))
    decreases |ops|
  {
    hide Sound, Backed, Chained, CartridgeChained, CartridgeEnds, Enabled, Step, LoadsChain, Reaches, ChainReaches,
         EndReaches, Files, Stored, VisitsStoredBlocks;
    if ops == [] {
      CartridgeVisitsStoredBlocks(v);
    } else {
      StepIsSound(probe, v, ops[0]);
      StepKeepsBacked(probe, v, ops[0]);
      StepKeepsCartridgeChain(probe, v, ops[0]);
      StepKeepsChain(probe, v, ops[0]);
      CartridgeVisitsInEveryRun(probe, Step(probe, v, ops[0]), ops[1..]);
    }
  }

  // When every recording was published before its stop, the chain reaches.
  lemma CarefulChainReaches(probe: bool, v: Vol, t: Tally, op: Op)
    requires Sound(v) && Agrees(v, t) && Settled(t) && Enabled(probe, v, op)
    ensures ChainReaches(v, op)
  {
    if v.isOpen {
      OpenCanUpdate(v);
    }
    hide Sound, Files, Stored;
  }

  lemma {:induction false} CarefulRunsReach(probe: bool, v: Vol, t: Tally, ops: seq<Op>)
    requires Sound(v) && Backed(v) && Agrees(v, t) && Possible(probe, v, ops) && Settled(t) && AllCareful(t, ops)
    ensures AllReach(probe, v, ops) && AllChainsReach(probe, v, ops)
    decreases |ops|
  {
    hide Sound, Enabled, Step, Backed, Agrees, TellsReach, Tallied, Reaches, Settled, Careful, ChainReaches;
    PublishedBeforeStops(probe, v, t, ops);
    if ops != [] {
      CarefulStep(probe, v, t, ops[0]);
      CarefulChainReaches(probe, v, t, ops[0]);
      StepIsSound(probe, v, ops[0]);
      StepKeepsBacked(probe, v, ops[0]);
      StepKeepsAgreement(probe, v, t, ops[0]);
      CarefulRunsReach(probe, Step(probe, v, ops[0]), Tallied(t, ops[0]), ops[1..]);
    }
  }
}
