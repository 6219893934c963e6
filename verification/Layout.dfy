// Where everything lies on the cartridge, over every run: recordings, the
// gaps behind them, and the node files in the gaps; and that closing a
// recording conserves the space counted as used.
module Layout {
  import opened Bytes
  import opened DirectoryFormat
  import opened Directory
  import opened NodeFile
  import opened Volume
  import opened VolumeInvariant
  import opened Recovery
  import opened NodeRecovery
  import opened Runs
  import opened TornErase
  import opened Backing

  // Behind a closed recording: the blocks reserved, and the node file in them.
  datatype Tail = Tail(reserved: nat, index: Index)

  const NO_TAIL := Tail(0, NoIndex)

  // Each recording starts exactly behind the one before and what is reserved
  // there, the write cursor stands behind the last, and every node file lies
  // intact in its gap.  Without node files there are no gaps.
  ghost predicate Laid(probe: bool, v: Vol, tails: seq<Tail>) {
    var files := Files(v);
    && |tails| == v.fileNumber && |files| == v.fileNumber + (if v.isOpen then 1 else 0)
    && Chain(files, tails)
    && (!v.isOpen ==> v.writeBlock == NextFree(files, tails))
    && forall k :: 0 <= k < |tails| ==> GapHolds(probe, v.sectors, files[k], tails[k])
  }

  ghost predicate GapHolds(probe: bool, sectors: seq<Sector>, e: FileEntry, tail: Tail) {
    && (!probe ==> tail == NO_TAIL)
    && (tail.index.Index? ==>
          var nodes := tail.index.nodes;
          Fits(|nodes|) && StoredAt(sectors, End(e), nodes) && NodeFileBlocks(|nodes|) <= tail.reserved)
  }

  ghost predicate Chain(files: seq<FileEntry>, tails: seq<Tail>) {
    && |files| - 1 <= |tails|
    && (files != [] ==> files[0].startAddress == RESERVED_BLOCKS)
    && forall k :: 0 <= k < |files| - 1 ==> End(files[k]) + tails[k].reserved == files[k + 1].startAddress
  }

  // First block behind the last recording and its gap.
  function NextFree(files: seq<FileEntry>, tails: seq<Tail>): nat
    requires |tails| == |files|
  {
    if files == [] then RESERVED_BLOCKS else End(files[|files| - 1]) + tails[|files| - 1].reserved
  }

  // Without gaps: every recording starts where the last ended.
  lemma NoNodeFilesNoGaps(v: Vol, tails: seq<Tail>)
    requires Laid(false, v, tails)
    ensures Tight(Files(v)) && (!v.isOpen ==> v.writeBlock == EndOfFiles(Files(v)))
  {
    hide Files;
    assert forall k :: 0 <= k < |tails| ==> GapHolds(false, v.sectors, Files(v)[k], tails[k]);
  }

  /* ---------- the layout after each step ---------- */

  // The node file of the last recording of a restored list, if sinit finds it
  // and its count is not 0.
  function FoundIndex(files: seq<FileEntry>, tails: seq<Tail>, list: seq<FileEntry>): Index
    requires list != [] && |list| <= |files| <= |tails| + 1
  {
    var k := |list| - 1;
    if k < |tails| && End(list[k]) == End(files[k]) && tails[k].index.Index? && tails[k].index.nodes != []
    then tails[k].index else NoIndex
  }

  function RestoredTails(files: seq<FileEntry>, tails: seq<Tail>, list: seq<FileEntry>, reserved: nat): seq<Tail>
    requires |list| <= |files| <= |tails| + 1
  {
    if list == [] then [] else tails[..|list| - 1] + [Tail(reserved, FoundIndex(files, tails, list))]
  }

  // Behind a recording closed with a node file one block more is reserved
  // than the file has; without a cartridge, or beyond its end, there is no
  // file.
  function NodeTail(v: Vol, nodes: seq<Node>, connected: bool): Tail {
    var b := NodeFileBlocks(|nodes|);
    Tail(if connected then b + 1 else 0,
         if connected && EndOfFiles(Files(v)) + b <= |v.sectors| then Index(nodes) else NoIndex)
  }

  /* ---------- recorded data and node files stay ---------- */

  // Blocks between the directory and the write cursor keep their contents.
  ghost predicate DataStays(v: Vol, sectors: seq<Sector>) {
    |sectors| == |v.sectors|
    && forall i :: RESERVED_BLOCKS <= i < |sectors| && i < v.writeBlock ==> sectors[i] == v.sectors[i]
  }

  lemma CurrentBlocksStored(v: Vol, table: seq<DirBlock>, b: nat)
    requires |table| == MAX_STANAG_BLOCKS && b < MAX_STANAG_BLOCKS
    ensures DataStays(v, StoredCurrent(v.sectors, table, b)) && DataStays(v, StoredPrevious(v.sectors, table, b))
  {
    hide StoreBlock;
  }

  lemma {:induction false} WholeDirectoryData(v: Vol, table: seq<DirBlock>, k: nat)
    requires k <= |table| == MAX_STANAG_BLOCKS
    ensures DataStays(v, StoredAll(v.sectors, table, k))
  {
    hide StoreBlock;
    forall i | RESERVED_BLOCKS <= i < |v.sectors| ensures StoredAll(v.sectors, table, k)[i] == v.sectors[i] {
      StoredAllAt(v.sectors, table, k, i);
    }
  }

  lemma StepKeepsData(probe: bool, v: Vol, op: Op)
    requires Sound(v) && Enabled(probe, v, op) && !op.Erase? && !op.PowerLoss?
    ensures DataStays(v, Step(probe, v, op).sectors)
  {
    EnabledSteps(probe, v, op);
    if op.StopWithNodes? {
      NodesStep(v, op.increment, op.nodes, op.stale, op.connected);
      CursorInFront(v);
      hide Sound, Files, EmergencyClosed, NodesWritten, StoredAt, EndOfFiles;
    } else if WritesBack(op) {
      WriteBackStoresTwo(probe, v, op);
      CurrentBlocksStored(v, Step(probe, v, op).table, v.fileNumber / 4);
      hide Sound, Files, StoredCurrent, Step;
    } else if op.EraseKeepingTmats? {
      TmatsSectors(v);
      WholeDirectoryData(v, TmatsTable(v.table), MAX_STANAG_BLOCKS);
      hide Sound, Files, TmatsErased;
    } else {
      PlainStepSectors(probe, v, op);
      hide Sound, Files, Step;
    }
  }

  lemma TmatsSectors(v: Vol)
    requires |v.table| == MAX_STANAG_BLOCKS
    ensures TmatsErased(v).sectors == StoredAll(v.sectors, TmatsTable(v.table), MAX_STANAG_BLOCKS)
  {
    hide TmatsTable, StoredAll;
  }

  lemma CursorInFront(v: Vol)
    requires Sound(v) && v.isOpen
    ensures v.writeBlock <= EndOfFiles(Files(v))
  {
    OpenCanUpdate(v);
    hide Holds, PaddedEntry, Placed, Ordered;
  }

  lemma CutKeepsData(v: Vol, cut: Cut)
    requires Cuttable(v, cut)
    ensures DataStays(v, CutSectors(v, cut))
  {
    match cut
    case AtRest =>
    case InUpdate(total, time) =>
      CurrentBlocksStored(v, UpdatedTable(v.table, v.fileNumber, total, time), v.fileNumber / 4);
      hide StoredPrevious, UpdatedTable;
    case InErase(k) =>
      WholeDirectoryData(v, TmatsTable(v.table), k);
      hide StoredAll, TmatsTable;
  }

  // Every gap ends at or before the write cursor.
  lemma GapsInFront(probe: bool, v: Vol, tails: seq<Tail>, k: nat)
    requires Sound(v) && Laid(probe, v, tails) && k < |tails|
    ensures RESERVED_BLOCKS <= End(Files(v)[k]) && End(Files(v)[k]) + tails[k].reserved <= v.writeBlock
  {
    var files := Files(v);
    hide Holds, PaddedEntry, Placed, Files, GapHolds;
    FirstBlockBound(files, k);
    if k < |files| - 1 {
      FirstBlockBound(files, k + 1);
      EndBound(files, k + 1);
      if k + 1 < |files| - 1 {
        ExtentsAreDisjoint(files, k + 1, |files| - 1);
      }
    }
  }

  lemma GapStays(probe: bool, v: Vol, tails: seq<Tail>, k: nat, sectors: seq<Sector>, e: FileEntry)
    requires Sound(v) && Laid(probe, v, tails) && k < |tails| && DataStays(v, sectors) && End(e) == End(Files(v)[k])
    ensures GapHolds(probe, sectors, e, tails[k])
  {
    GapsInFront(probe, v, tails, k);
    assert GapHolds(probe, v.sectors, Files(v)[k], tails[k]);
    hide Sound, Files, StoredAt;
    if tails[k].index.Index? {
      StaysStored(v.sectors, sectors, End(e), tails[k].index.nodes);
    }
  }

  /* ---------- every step keeps the layout ---------- */

  // The list keeps its closed files, and the cursor moves as told.
  lemma LaidAgain(probe: bool, v: Vol, tails: seq<Tail>, w: Vol, files: seq<FileEntry>)
    requires Sound(v) && Laid(probe, v, tails) && DataStays(v, w.sectors) && Files(w) == files
    requires |files| == w.fileNumber + (if w.isOpen then 1 else 0) && w.fileNumber == v.fileNumber
    requires |files| >= |tails| && forall k :: 0 <= k < |tails| ==> files[k] == Files(v)[k]
    requires |files| > |tails| ==> files[|tails|].startAddress == NextStart(v, tails)
    requires !w.isOpen ==> w.writeBlock == NextFree(files, tails)
    ensures Laid(probe, w, tails)
  {
    forall k | 0 <= k < |tails| ensures GapHolds(probe, w.sectors, files[k], tails[k]) {
      GapStays(probe, v, tails, k, w.sectors, files[k]);
    }
    hide Sound, Files, GapHolds;
    forall k | 0 <= k < |files| - 1 ensures End(files[k]) + tails[k].reserved == files[k + 1].startAddress {
      if k + 1 == |tails| {
        assert files[k] == Files(v)[k];
      }
    }
  }

  // Where the next recording starts, or the open one started.
  function NextStart(v: Vol, tails: seq<Tail>): nat
    requires |tails| <= |Files(v)|
  {
    if tails == [] then RESERVED_BLOCKS else End(Files(v)[|tails| - 1]) + tails[|tails| - 1].reserved
  }

  // The open recording is closed, with a gap behind it.
  lemma LaidWithTail(probe: bool, v: Vol, tails: seq<Tail>, w: Vol, tail: Tail)
    requires Sound(v) && Laid(probe, v, tails) && v.isOpen && DataStays(v, w.sectors)
    requires var n := |Files(v)| - 1;
      |Files(w)| == |Files(v)| && n >= 0 && (forall k :: 0 <= k < n ==> Files(w)[k] == Files(v)[k])
      && Files(w)[n].startAddress == Files(v)[n].startAddress
    requires !w.isOpen && w.fileNumber == v.fileNumber + 1
    requires w.writeBlock == EndOfFiles(Files(w)) + tail.reserved
    requires GapHolds(probe, w.sectors, Files(w)[|Files(w)| - 1], tail)
    ensures Laid(probe, w, tails + [tail])
  {
    hide Sound, Files, GapHolds, DataStays;
    var files, more := Files(w), tails + [tail];
    forall k | 0 <= k < |more| ensures GapHolds(probe, w.sectors, files[k], more[k]) {
      if k < |tails| {
        GapStays(probe, v, tails, k, w.sectors, files[k]);
      }
    }
    LongerChain(Files(v), tails, files, tail);
  }

  lemma LongerChain(before: seq<FileEntry>, tails: seq<Tail>, files: seq<FileEntry>, tail: Tail)
    requires Chain(before, tails) && |tails| == |before| - 1 == |files| - 1
    requires forall k :: 0 <= k < |before| - 1 ==> files[k] == before[k]
    requires files[|files| - 1].startAddress == before[|files| - 1].startAddress
    ensures Chain(files, tails + [tail])
  {
    var more := tails + [tail];
    forall k | 0 <= k < |files| - 1 ensures End(files[k]) + more[k].reserved == files[k + 1].startAddress {
      assert files[k] == before[k] && more[k] == tails[k];
      assert files[k + 1].startAddress == before[k + 1].startAddress;
    }
  }

  lemma CountOfFiles(v: Vol)
    requires Sound(v)
    ensures |Files(v)| == v.fileNumber + if v.isOpen then 1 else 0
    ensures v.isOpen ==> Files(v) != [] && Files(v)[|Files(v)| - 1].startAddress == v.writeBlock
  {
    hide Holds, PaddedEntry, Placed, Ordered, Files;
  }

  lemma OpenStepShape(probe: bool, v: Vol, op: Op)
    requires Sound(v) && Enabled(probe, v, op) && (op.Open? || StaysOpen(op))
    ensures var w := Step(probe, v, op); w.fileNumber == v.fileNumber && w.writeBlock == v.writeBlock && w.isOpen
  {
    OpenAfter(probe, v, op);
    EnabledSteps(probe, v, op);
    hide Sound, Files, OpenedTable, UpdatedTable, StoredCurrent, Blocks;
  }

  lemma OpenStepKeepsLaid(probe: bool, v: Vol, tails: seq<Tail>, op: Op)
    requires Sound(v) && Enabled(probe, v, op) && Laid(probe, v, tails) && (op.Open? || StaysOpen(op))
    ensures Laid(probe, Step(probe, v, op), tails)
  {
    OpenStepShape(probe, v, op);
    StepKeepsSound(probe, v, op);
    StepKeepsData(probe, v, op);
    CountOfFiles(v);
    CountOfFiles(Step(probe, v, op));
    StillLaidFiles(probe, v, tails, op);
    hide Sound, Files, Step, Laid, Enabled, NextFiles, DataStays, NextStart;
    LaidAgain(probe, v, tails, Step(probe, v, op), NextFiles(v, op));
  }

  lemma StillLaidFiles(probe: bool, v: Vol, tails: seq<Tail>, op: Op)
    requires Sound(v) && Enabled(probe, v, op) && Laid(probe, v, tails) && (op.Open? || StaysOpen(op))
    requires op.Publish? || op.PublishAll? ==> Files(v) != []
    ensures var files := NextFiles(v, op);
      && |tails| <= |Files(v)| <= |files|
      && (forall k :: 0 <= k < |tails| ==> files[k] == Files(v)[k])
      && (|files| > |tails| ==> files[|tails|].startAddress == NextStart(v, tails))
  {
    assert StaysOpen(op) ==> v.isOpen;
    OpenStepFiles(probe, v, op);
    hide Sound, Files, GapHolds, NextFiles, Enabled;
  }

  // What a step with an open file afterwards makes of the list.
  lemma OpenStepFiles(probe: bool, v: Vol, op: Op)
    requires Enabled(probe, v, op) && (op.Open? || StaysOpen(op))
    requires op.Publish? || op.PublishAll? ==> Files(v) != []
    ensures var files := NextFiles(v, op);
      if op.Open? && !v.isOpen
      then |files| == |Files(v)| + 1 && files[..|Files(v)|] == Files(v)
           && files[|Files(v)|].startAddress == v.writeBlock
      else |files| == |Files(v)| && (forall k :: 0 <= k < |files| - 1 ==> files[k] == Files(v)[k])
           && (files != [] ==> files[|files| - 1].startAddress == Files(v)[|files| - 1].startAddress)
  {
    hide Files, Published;
    match op
    case Publish(offset, pktLen, _, _, time) => PublishedShape(Files(v), (offset + pktLen) % TWO64, time);
    case PublishAll(blocks, _, _, time) => PublishedShape(Files(v), blocks * 512, time);
    case _ =>
  }

  lemma StopKeepsLaid(probe: bool, v: Vol, tails: seq<Tail>, increment: bool)
    requires Sound(v) && v.isOpen && Laid(probe, v, tails)
    ensures CanUpdate(v) && Laid(probe, EmergencyClosed(v, increment), tails + [NO_TAIL])
  {
    OpenCanUpdate(v);
    StopStep(v, increment);
    var w := EmergencyClosed(v, increment);
    assert w.sectors == v.sectors && !w.isOpen && w.fileNumber == v.fileNumber + 1 by {
      hide BlankedTable, Sound;
    }
    hide Sound, Files, EmergencyClosed, Laid, EndOfFiles;
    LaidWithTail(probe, v, tails, w, NO_TAIL);
  }

  lemma NodesKeepLaid(v: Vol, tails: seq<Tail>, op: Op)
    requires Sound(v) && v.isOpen && Laid(true, v, tails) && op.StopWithNodes? && Fits(|op.nodes|)
    ensures Enabled(true, v, op)
    ensures Laid(true, Step(true, v, op), tails + [NodeTail(v, op.nodes, op.connected)])
  {
    StepKeepsData(true, v, op);
    NodesStep(v, op.increment, op.nodes, op.stale, op.connected);
    OpenCanUpdate(v);
    var w := Step(true, v, op);
    assert w == NodesWritten(EmergencyClosed(v, op.increment), op.nodes, op.stale, op.connected) by {
      hide Sound;
    }
    hide Sound, Step, EmergencyClosed, NodesWritten, Laid, StoredAt, Files;
    LaidWithTail(true, v, tails, w, NodeTail(v, op.nodes, op.connected));
  }

  lemma SCloseKeepsLaid(probe: bool, v: Vol, tails: seq<Tail>, op: Op)
    requires Sound(v) && Enabled(probe, v, op) && op.SClose? && Laid(probe, v, tails)
    ensures Laid(probe, Step(probe, v, op), tails + [NO_TAIL])
  {
    OpenCanUpdate(v);
    StepKeepsData(probe, v, op);
    OpenAfter(probe, v, op);
    SCloseStep(v, op.increment, op.fill, op.btmFill, op.blocksRecorded, op.time);
    PublishedShape(Files(v), ClosingBytes(v.totalBytes, op.fill, op.btmFill, op.blocksRecorded), op.time);
    var w := Step(probe, v, op);
    assert w.fileNumber == v.fileNumber + 1 by {
      hide Sound, Files, ClosingBytes, Blocks, UpdatedTable, BlankedTable, StoredCurrent;
    }
    hide Sound, Files, SClosed, Laid, EndOfFiles, Published, ClosingBytes, Blocks;
    LaidWithTail(probe, v, tails, w, NO_TAIL);
  }

  lemma EraseKeepsLaid(probe: bool, v: Vol, ok: bool)
    requires Sound(v) && !v.isOpen
    ensures Laid(probe, Erased(v, ok), [])
  {
    EraseStep(v, ok);
    hide Files, Sound, InitTable;
  }

  lemma TmatsEraseKeepsLaid(probe: bool, v: Vol)
    requires Sound(v) && !v.isOpen && v.fileNumber > 0
    ensures |v.table| == MAX_STANAG_BLOCKS && Laid(probe, TmatsErased(v), [NO_TAIL])
  {
    TmatsEraseStep(v);
    TmatsEraseKeepsInv(v, Files(v));
    var w := TmatsErased(v);
    CountOfFiles(w);
    hide Files, TmatsErased, Inv;
  }

  /* ---------- restarts ---------- */

  // A restored list is an initial part of the one in memory, its last entry
  // at the same place.
  ghost predicate Initial(list: seq<FileEntry>, files: seq<FileEntry>) {
    && |list| <= |files|
    && (forall k :: 0 <= k < |list| - 1 ==> list[k] == files[k])
    && (list != [] ==> list[|list| - 1].startAddress == files[|list| - 1].startAddress)
  }

  lemma CutListIsInitial(v: Vol, cut: Cut)
    requires Sound(v) && Backed(v) && Cuttable(v, cut)
    requires Files(v) != [] ==> Files(v)[0].startAddress == RESERVED_BLOCKS
    requires cut.InUpdate? ==> Files(v) != [] && LastIn(Files(v), v.fileNumber / 4)
    requires cut.InErase? ==> Files(v) != []
    ensures Initial(CutList(v, cut), Files(v))
  {
    var stored, files := Stored(v), Files(v);
    assert Behind(stored, files);
    hide Sound, Files, Stored, DiskHolds, Published;
    match cut
    case AtRest =>
    case InErase(k) =>
    case InUpdate(total, time) =>
      PublishedShape(files, total, time);
      MixedIsInitial(stored, files, Published(files, total, time), v.fileNumber / 4);
  }

  lemma MixedIsInitial(stored: seq<FileEntry>, files: seq<FileEntry>, published: seq<FileEntry>, b: nat)
    requires Initial(stored, files) && |published| == |files| && LastIn(published, b)
    requires forall k :: 0 <= k < |files| - 1 ==> published[k] == files[k]
    requires published[|files| - 1].startAddress == files[|files| - 1].startAddress
    ensures Initial(Mixed(stored, published, b), files)
  {
    var mixed := Mixed(stored, published, b);
    assert forall k :: 0 <= k < |mixed| && k < 4 * b ==> mixed[k] == published[k];
    assert forall k :: 4 * b <= k < |mixed| ==> mixed[k] == stored[k];
  }

  // The node file of the last recording, when its end is where it was, is
  // found again, and its blocks are reserved again.
  lemma {:induction false} LastGapAgain(v: Vol, tails: seq<Tail>, sectors: seq<Sector>, list: seq<FileEntry>,
                                        probe: bool)
    requires Sound(v) && Laid(probe, v, tails) && DataStays(v, sectors) && list != [] && |list| <= |Files(v)|
    ensures |Files(v)| <= |tails| + 1
    ensures GapHolds(probe, sectors, list[|list| - 1],
                     Tail(Reserve(sectors, list, probe), FoundIndex(Files(v), tails, list)))
  {
    var k, index := |list| - 1, FoundIndex(Files(v), tails, list);
    if index.Index? {
      GapStays(probe, v, tails, k, sectors, list[k]);
      hide Sound, Files, StoredAt;
      assert probe;
      StoredNodeFileIsFound(sectors, list, k, index.nodes);
    }
  }

  lemma RestoredIsLaid(probe: bool, v: Vol, tails: seq<Tail>, w: Vol, list: seq<FileEntry>)
    requires Sound(v) && Laid(probe, v, tails) && DataStays(v, w.sectors)
    requires Files(w) == list && Initial(list, Files(v)) && !w.isOpen && w.fileNumber == |list|
    requires w.writeBlock == EndOfFiles(list) + Reserve(w.sectors, list, probe)
    requires list == [] ==> Reserve(w.sectors, list, probe) == 0
    ensures |Files(v)| <= |tails| + 1
    ensures Laid(probe, w, RestoredTails(Files(v), tails, list, Reserve(w.sectors, list, probe)))
  {
    var restored := RestoredTails(Files(v), tails, list, Reserve(w.sectors, list, probe));
    if list != [] {
      LastGapAgain(v, tails, w.sectors, list, probe);
      forall k | 0 <= k < |restored| ensures GapHolds(probe, w.sectors, list[k], restored[k]) {
        if k < |list| - 1 {
          GapStays(probe, v, tails, k, w.sectors, list[k]);
        }
      }
      hide Sound, Files, GapHolds, Reserve, DataStays;
      RestoredChain(Files(v), tails, list, restored);
    }
  }

  lemma RestoredChain(files: seq<FileEntry>, tails: seq<Tail>, list: seq<FileEntry>, restored: seq<Tail>)
    requires Chain(files, tails) && Initial(list, files) && |restored| == |list|
    requires forall k :: 0 <= k < |list| - 1 ==> restored[k] == tails[k]
    ensures Chain(list, restored)
  {
    forall k | 0 <= k < |list| - 1 ensures End(list[k]) + restored[k].reserved == list[k + 1].startAddress {
      assert list[k] == files[k] && list[k + 1].startAddress == files[k + 1].startAddress;
    }
  }

  // The list and the tails sinit makes of the cartridge at a cut.
  lemma PowerLossRestores(probe: bool, v: Vol, tails: seq<Tail>, cut: Cut, faults: set<nat>)
    requires Sound(v) && Backed(v) && Laid(probe, v, tails)
    requires Enabled(probe, v, PowerLoss(cut, faults)) && Reaches(v, PowerLoss(cut, faults))
    requires Recoverable(StoredOn(CutSectors(v, cut)), probe)
    ensures cut.InUpdate? ==> Files(v) != [] && LastIn(Files(v), v.fileNumber / 4)
    ensures cut.InErase? ==> Files(v) != []
    ensures var w, list := Step(probe, v, PowerLoss(cut, faults)), CutList(v, cut);
      && Sound(w) && Files(w) == list && Initial(list, Files(v)) && |list| <= |Files(v)|
      && !w.isOpen && w.fileNumber == |list| && w.sectors == CutSectors(v, cut) && DataStays(v, w.sectors)
      && w.writeBlock == EndOfFiles(list) + Reserve(w.sectors, list, probe)
  {
    var op := PowerLoss(cut, faults);
    assert Cuttable(v, cut);
    hide *;
    if Files(v) != [] { FirstRecording(probe, v, tails); }
    PowerLossKeepsBacked(probe, v, cut, faults);
    StoredIsOn(Step(probe, v, op));
    CutListIsInitial(v, cut);
    InitialIsShorter(CutList(v, cut), Files(v));
    CutKeepsData(v, cut);
    StepIsSound(probe, v, op);
    CountOfFiles(Step(probe, v, op));
  }

  lemma PowerLossKeepsLaid(probe: bool, v: Vol, tails: seq<Tail>, cut: Cut, faults: set<nat>)
    requires Sound(v) && Backed(v) && Laid(probe, v, tails)
    requires Enabled(probe, v, PowerLoss(cut, faults)) && Reaches(v, PowerLoss(cut, faults))
    requires Recoverable(StoredOn(CutSectors(v, cut)), probe)
    ensures cut.InUpdate? ==> Files(v) != [] && LastIn(Files(v), v.fileNumber / 4)
    ensures cut.InErase? ==> Files(v) != []
    ensures |CutList(v, cut)| <= |Files(v)| <= |tails| + 1
    ensures Laid(probe, Step(probe, v, PowerLoss(cut, faults)),
                 RestoredTails(Files(v), tails, CutList(v, cut), Reserve(CutSectors(v, cut), CutList(v, cut), probe)))
  {
    PowerLossRestores(probe, v, tails, cut, faults);
    hide Sound, Files, Stored, Step, CutSectors, CutList, Cuttable, Enabled, Reaches, Backed, Laid, Reserve,
         DataStays, EndOfFiles, LoadAll, Initial, RestoredTails;
    var w := Step(probe, v, PowerLoss(cut, faults));
    NothingReserved(w.sectors, probe);
    RestoredIsLaid(probe, v, tails, w, CutList(v, cut));
  }

  lemma FirstRecording(probe: bool, v: Vol, tails: seq<Tail>)
    requires Laid(probe, v, tails) && Files(v) != []
    ensures Files(v)[0].startAddress == RESERVED_BLOCKS
  {
    hide Files;
  }

  lemma InitialIsShorter(list: seq<FileEntry>, files: seq<FileEntry>)
    requires Initial(list, files)
    ensures |list| <= |files|
  {
  }

  /* ---------- every step ---------- */

  // At a restart that finds a directory the cartridge holds a list, of which
  // sinit can tell the end.
  ghost predicate Restorable(probe: bool, v: Vol, op: Op) {
    op.PowerLoss? ==>
      && Cuttable(v, op.cut)
      && (FindsDirectory(CutSectors(v, op.cut), op.faults) ==>
            Backed(v) && Reaches(v, op) && Recoverable(StoredOn(CutSectors(v, op.cut)), probe))
  }

  ghost function NextTails(probe: bool, v: Vol, tails: seq<Tail>, op: Op): seq<Tail>
    requires Sound(v) && Laid(probe, v, tails) && Enabled(probe, v, op) && Restorable(probe, v, op)
  {
    match op
    case Stop(_) => tails + [NO_TAIL]
    case SClose(_, _, _, _, _) => tails + [NO_TAIL]
    case StopWithNodes(_, nodes, _, connected) => tails + [NodeTail(v, nodes, connected)]
    case Erase(_) => []
    case EraseKeepingTmats => [NO_TAIL]
    case PowerLoss(cut, faults) =>
      if FindsDirectory(CutSectors(v, cut), faults) then
        PowerLossKeepsLaid(probe, v, tails, cut, faults);
        RestoredTails(Files(v), tails, CutList(v, cut), Reserve(CutSectors(v, cut), CutList(v, cut), probe))
      else []
    case _ => tails
  }

  lemma NoDirectoryKeepsLaid(probe: bool, v: Vol, op: Op)
    requires Sound(v) && Enabled(probe, v, op) && op.PowerLoss?
    requires !FindsDirectory(CutSectors(v, op.cut), op.faults)
    ensures Laid(probe, Step(probe, v, op), [])
  {
    PowerLossIsRestart(probe, v, op.cut, op.faults);
    hide Sound, Files, CutSectors, Cuttable, PowerCycled, FindsDirectory, Enabled, Step, LoadAll, StartsSound,
         ScannedReserve;
    RestartStep(v, CutSectors(v, op.cut), op.faults, probe);
    RestartCursor(v, CutSectors(v, op.cut), op.faults, probe);
    CountOfFiles(Step(probe, v, op));
  }

  lemma ClosingStepKeepsLaid(probe: bool, v: Vol, tails: seq<Tail>, op: Op)
    requires Sound(v) && Enabled(probe, v, op) && Laid(probe, v, tails) && (op.Stop? || op.SClose? || op.StopWithNodes?)
    ensures Laid(probe, Step(probe, v, op), NextTails(probe, v, tails, op))
  {
    assert v.isOpen;
    OpenCanUpdate(v);
    hide Sound, Files, Laid, EmergencyClosed, NodesWritten, SClosed, Blocks, ClosingBytes;
    if op.Stop? {
      StopKeepsLaid(probe, v, tails, op.increment);
    } else if op.SClose? {
      hide Step;
      SCloseKeepsLaid(probe, v, tails, op);
    } else {
      NodesKeepLaid(v, tails, op);
    }
  }

  lemma ErasingStepKeepsLaid(probe: bool, v: Vol, tails: seq<Tail>, op: Op)
    requires Sound(v) && Enabled(probe, v, op) && Laid(probe, v, tails) && (op.Erase? || op.EraseKeepingTmats?)
    ensures Laid(probe, Step(probe, v, op), NextTails(probe, v, tails, op))
  {
    assert !v.isOpen;
    hide Sound, Files, Laid, Erased, TmatsErased;
    if op.Erase? {
      EraseKeepsLaid(probe, v, op.ok);
    } else {
      TmatsEraseKeepsLaid(probe, v);
    }
  }

  // Every step keeps the layout, in both configurations.
  lemma StepKeepsLaid(probe: bool, v: Vol, tails: seq<Tail>, op: Op)
    requires Sound(v) && Laid(probe, v, tails) && Enabled(probe, v, op) && Restorable(probe, v, op)
    ensures Laid(probe, Step(probe, v, op), NextTails(probe, v, tails, op))
  {
    hide Sound, Files, Step, Enabled, Laid, FindsDirectory, CutSectors, Cuttable, RestoredTails, CutList, Reaches,
         Backed, EndOfFiles;
    if op.PowerLoss? {
      if FindsDirectory(CutSectors(v, op.cut), op.faults) {
        PowerLossKeepsLaid(probe, v, tails, op.cut, op.faults);
      } else {
        NoDirectoryKeepsLaid(probe, v, op);
      }
    } else if op.Stop? || op.SClose? || op.StopWithNodes? {
      ClosingStepKeepsLaid(probe, v, tails, op);
    } else if op.Erase? || op.EraseKeepingTmats? {
      ErasingStepKeepsLaid(probe, v, tails, op);
    } else {
      OpenStepKeepsLaid(probe, v, tails, op);
    }
  }

  /* ---------- every run ---------- */

  ghost predicate AllRestorable(probe: bool, v: Vol, ops: seq<Op>)
    requires Possible(probe, v, ops)
    decreases |ops|
  {
    ops == [] || (Restorable(probe, v, ops[0]) && AllRestorable(probe, Step(probe, v, ops[0]), ops[1..]))
  }

  // Every restart of the run finds a list of which sinit can tell the end.
  // Without the probe that is always so.
  ghost predicate AllRecoverable(probe: bool, v: Vol, ops: seq<Op>)
    requires Possible(probe, v, ops)
    decreases |ops|
  {
    ops == []
    || ((ops[0].PowerLoss? && Cuttable(v, ops[0].cut) ==> Recoverable(StoredOn(CutSectors(v, ops[0].cut)), probe))
        && AllRecoverable(probe, Step(probe, v, ops[0]), ops[1..]))
  }

  // Without a loss of power nothing is asked of the updates; with them, it is
  // enough that every step reaches.
  lemma {:induction false} ReachingIsRestorable(probe: bool, v: Vol, ops: seq<Op>)
    requires Sound(v) && Possible(probe, v, ops)
    requires (forall i :: 0 <= i < |ops| ==> !ops[i].PowerLoss?)
          || (Backed(v) && AllReach(probe, v, ops) && AllRecoverable(probe, v, ops))
    ensures AllRestorable(probe, v, ops)
    decreases |ops|
  {
    hide Sound, Enabled, Step, Backed, Files, Stored, DirectoryReadable, CutSectors, CutReaches, FindsDirectory,
         Recoverable, StoredOn;
    if ops != [] {
      StepIsSound(probe, v, ops[0]);
      if Backed(v) && AllReach(probe, v, ops) && AllRecoverable(probe, v, ops) {
        StepKeepsBacked(probe, v, ops[0]);
      }
      ReachingIsRestorable(probe, Step(probe, v, ops[0]), ops[1..]);
    }
  }

  ghost function RunTails(probe: bool, v: Vol, tails: seq<Tail>, ops: seq<Op>): seq<Tail>
    requires Sound(v) && Laid(probe, v, tails) && Possible(probe, v, ops) && AllRestorable(probe, v, ops)
    decreases |ops|
  {
    if ops == [] then tails
    else
      StepIsSound(probe, v, ops[0]);
      StepKeepsLaid(probe, v, tails, ops[0]);
      RunTails(probe, Step(probe, v, ops[0]), NextTails(probe, v, tails, ops[0]), ops[1..])
  }

  // Over every such run, in both configurations: each recording starts right
  // behind what is reserved behind the one before, and every node file lies
  // where it was written.
  lemma {:induction false} RunKeepsLaid(probe: bool, v: Vol, tails: seq<Tail>, ops: seq<Op>)
    requires Sound(v) && Laid(probe, v, tails) && Possible(probe, v, ops) && AllRestorable(probe, v, ops)
    ensures Laid(probe, Run(probe, v, ops), RunTails(probe, v, tails, ops))
    decreases |ops|
  {
    hide Sound, Enabled, Step, Laid, NextTails, Restorable;
    if ops != [] {
      StepIsSound(probe, v, ops[0]);
      StepKeepsLaid(probe, v, tails, ops[0]);
      RunKeepsLaid(probe, Step(probe, v, ops[0]), NextTails(probe, v, tails, ops[0]), ops[1..]);
    }
  }

  // Without node files, over every such run: each recording starts where the
  // one before ended, and the write cursor stands behind the last.
  lemma {:induction false} RunKeepsTight(v: Vol, tails: seq<Tail>, ops: seq<Op>)
    requires Sound(v) && Laid(false, v, tails) && Possible(false, v, ops) && AllRestorable(false, v, ops)
    ensures var w := Run(false, v, ops);
      Tight(Files(w)) && (!w.isOpen ==> w.writeBlock == EndOfFiles(Files(w)))
  {
    hide Sound, Possible, AllRestorable, Run, Laid, RunTails, Files, EndOfFiles, Tight;
    RunKeepsLaid(false, v, tails, ops);
    NoNodeFilesNoGaps(Run(false, v, ops), RunTails(false, v, tails, ops));
  }

  lemma NothingIsLaid(probe: bool, v: Vol)
    requires Sound(v) && Files(v) == [] && !v.isOpen && v.writeBlock == RESERVED_BLOCKS
    ensures Laid(probe, v, [])
  {
    CountOfFiles(v);
  }

  /* ---------- node files in every run ---------- */

  // Nothing is erased, and entry k of the list stays e, also over restarts.
  ghost predicate StaysListed(probe: bool, v: Vol, ops: seq<Op>, k: nat, e: FileEntry)
    requires Possible(probe, v, ops)
    decreases |ops|
  {
    && k < |Files(v)| && Files(v)[k] == e
    && (ops == [] || (!ops[0].Erase? && !ops[0].EraseKeepingTmats?
                      && StaysListed(probe, Step(probe, v, ops[0]), ops[1..], k, e)))
  }

  lemma RestartFindsNodeFile(files: seq<FileEntry>, tails: seq<Tail>, list: seq<FileEntry>, reserved: nat,
                             k: nat, nodes: seq<Node>)
    requires |list| <= |files| <= |tails| + 1 && k < |list| && k < |tails| && list[k] == files[k]
    requires tails[k].index == Index(nodes) && nodes != []
    ensures var next := RestoredTails(files, tails, list, reserved); k < |next| && next[k].index == Index(nodes)
  {
  }

  lemma StepKeepsNodeFile(probe: bool, v: Vol, tails: seq<Tail>, op: Op, k: nat, nodes: seq<Node>)
    requires Sound(v) && Laid(probe, v, tails) && Enabled(probe, v, op) && Restorable(probe, v, op)
    requires !op.Erase? && !op.EraseKeepingTmats?
    requires k < |tails| && tails[k].index == Index(nodes) && nodes != []
    requires k < |Files(v)| && k < |Files(Step(probe, v, op))| && Files(Step(probe, v, op))[k] == Files(v)[k]
    ensures var next := NextTails(probe, v, tails, op); k < |next| && next[k].index == Index(nodes)
  {
    if op.PowerLoss? {
      hide *;
      RestartKeepsNodeFile(probe, v, tails, op, k, nodes);
    } else {
      hide Sound, Files, Step, Enabled, Laid;
    }
  }

  lemma RestartKeepsNodeFile(probe: bool, v: Vol, tails: seq<Tail>, op: Op, k: nat, nodes: seq<Node>)
    requires Sound(v) && Laid(probe, v, tails) && Enabled(probe, v, op) && Restorable(probe, v, op) && op.PowerLoss?
    requires k < |tails| && tails[k].index == Index(nodes) && nodes != []
    requires k < |Files(v)| && k < |Files(Step(probe, v, op))| && Files(Step(probe, v, op))[k] == Files(v)[k]
    ensures var next := NextTails(probe, v, tails, op); k < |next| && next[k].index == Index(nodes)
  {
    hide Sound, Files, Step, Enabled, Laid, FindsDirectory, CutSectors, Cuttable, RestoredTails, CutList, Reaches,
         Backed, EndOfFiles, StoredOn, Recoverable, NextFiles, Reserve, Initial, DataStays, StartList;
    if FindsDirectory(CutSectors(v, op.cut), op.faults) {
      PowerLossKeepsLaid(probe, v, tails, op.cut, op.faults);
      PowerLossRestores(probe, v, tails, op.cut, op.faults);
      var list := CutList(v, op.cut);
      RestartFindsNodeFile(Files(v), tails, list, Reserve(CutSectors(v, op.cut), list, probe), k, nodes);
    } else {
      NoDirectoryNoFiles(probe, v, op);
    }
  }

  lemma NoDirectoryNoFiles(probe: bool, v: Vol, op: Op)
    requires Sound(v) && Enabled(probe, v, op) && op.PowerLoss?
    requires !FindsDirectory(CutSectors(v, op.cut), op.faults)
    ensures Files(Step(probe, v, op)) == []
  {
    StepKeepsSound(probe, v, op);
    hide Sound, Files, Step, CutSectors, Cuttable, FindsDirectory, Restartable;
  }

  // A node file with entries stays on the cartridge as it was written, for as
  // long as its recording is listed as it was and nothing is erased.
  lemma {:induction false} NodeFileStays(probe: bool, v: Vol, tails: seq<Tail>, ops: seq<Op>, k: nat, nodes: seq<Node>)
    requires Sound(v) && Laid(probe, v, tails) && Possible(probe, v, ops) && AllRestorable(probe, v, ops)
    requires k < |tails| && tails[k].index == Index(nodes) && nodes != []
    requires k < |Files(v)| && StaysListed(probe, v, ops, k, Files(v)[k])
    ensures Fits(|nodes|) && StoredAt(Run(probe, v, ops).sectors, End(Files(v)[k]), nodes)
    decreases |ops|
  {
    hide Sound, Files, Enabled, Step, NextTails, Restorable;
    if ops == [] {
      assert GapHolds(probe, v.sectors, Files(v)[k], tails[k]);
    } else {
      hide Laid;
      StepIsSound(probe, v, ops[0]);
      StepKeepsLaid(probe, v, tails, ops[0]);
      ListedNext(probe, v, ops, k, Files(v)[k]);
      StepKeepsNodeFile(probe, v, tails, ops[0], k, nodes);
      NodeFileStays(probe, Step(probe, v, ops[0]), NextTails(probe, v, tails, ops[0]), ops[1..], k, nodes);
    }
  }

  lemma {:induction false} ListedNext(probe: bool, v: Vol, ops: seq<Op>, k: nat, e: FileEntry)
    requires Possible(probe, v, ops) && ops != [] && StaysListed(probe, v, ops, k, e)
    ensures Sound(v) && Enabled(probe, v, ops[0])
    ensures var w := Step(probe, v, ops[0]);
      k < |Files(w)| && Files(w)[k] == e && StaysListed(probe, w, ops[1..], k, e)
  {
    hide Sound, Files, Enabled, Step;
  }

  // A node file without entries is written all the same, but the next start
  // does not reserve its block: it clears the node file behind the last
  // recording exactly when that has entries.
  lemma {:induction false} RestartClearsNodeFile(v: Vol, tails: seq<Tail>, faults: set<nat>, nodes: seq<Node>)
    requires Sound(v) && Backed(v) && Laid(true, v, tails) && !v.isOpen && Stored(v) == Files(v) != []
    requires Enabled(true, v, PowerLoss(AtRest, faults)) && DirectoryReadable(v.sectors, faults)
    requires Recoverable(Files(v), true)
    requires |tails| == |Files(v)| && tails[|tails| - 1].index == Index(nodes)
    ensures var w, a := Step(true, v, PowerLoss(AtRest, faults)), EndOfFiles(Files(v));
      && Files(w) == Files(v) && StoredAt(w.sectors, a, nodes)
      && (a + NodeFileBlocks(|nodes|) <= w.writeBlock <==> nodes != [])
      && (nodes == [] ==> w.writeBlock == a)
  {
    var k, e := |tails| - 1, Files(v)[|tails| - 1];
    hide Sound, Files, Stored, Backed, Step, Enabled, StoredAt, DirectoryReadable, Recoverable, NodeFileBlocks, Fits;
    assert GapHolds(true, v.sectors, Files(v)[k], tails[k]);
    PowerLossKeepsBacked(true, v, AtRest, faults);
    StoredNodeFileIsFound(v.sectors, Files(v), k, nodes);
  }
}
