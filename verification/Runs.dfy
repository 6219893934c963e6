// Every run of the directory: any sequence of opens, updates, closes, node
// files and erases, with recorded data arriving in between and power lost
// anywhere - also between two block writes of an update or of an erase.  The
// configuration (probe) is that of the whole run: only where sinit looks for
// node files are any written.
module Runs {
  import opened Bytes
  import opened DirectoryFormat
  import opened Directory
  import opened NodeFile
  import opened Volume
  import opened VolumeInvariant
  import opened Recovery
  import opened Crash
  import opened NodeRecovery

  // Where power is lost: between operations, between the two block writes of
  // an update, or after k of the 128 of the erase that keeps the TMATS file.
  // The blocks of a node file cut off while it is written are to the cartridge
  // like recorded data behind the open recording.
  datatype Cut = AtRest | InUpdate(total: U64, time: Text8) | InErase(k: nat)

  datatype Op =
    | Open(name: Text56, date: Text8, time: Text8)
    | Publish(offset: U64, pktLen: int, present: bool, connected: bool, time: Text8)
    | PublishAll(blocksRecorded: U32, present: bool, connected: bool, time: Text8)
    | Capture(a: nat, sector: Sector)
    | Stop(increment: bool)
    | StopWithNodes(increment: bool, nodes: seq<Node>, stale: Stale, connected: bool)
    | SClose(increment: bool, fill: nat, btmFill: U32, blocksRecorded: U32, time: Text8)
    | Erase(ok: bool)
    | EraseKeepingTmats
    | PowerLoss(cut: Cut, faults: set<nat>)

  // The lists in memory and on the cartridge.
  function Files(v: Vol): seq<FileEntry> {
    FilesOf(v.table)
  }

  function Stored(v: Vol): seq<FileEntry> {
    StoredOn(v.sectors)
  }

  function StoredOn(sectors: seq<Sector>): seq<FileEntry> {
    if |sectors| < RESERVED_BLOCKS then [] else StoredFiles(sectors)
  }

  // The allocator invariant.
  ghost predicate Sound(v: Vol) {
    Inv(v, Files(v))
  }

  ghost predicate Cuttable(v: Vol, cut: Cut) {
    match cut
    case AtRest => true
    case InUpdate(_, time) => v.isOpen && CanUpdate(v) && IsPadded(time)
    case InErase(k) => !v.isOpen && v.fileNumber > 0 && |v.table| == MAX_STANAG_BLOCKS && k <= MAX_STANAG_BLOCKS
  }

  // What is on the cartridge when power is lost there.
  ghost function CutSectors(v: Vol, cut: Cut): (s: seq<Sector>)
    requires Cuttable(v, cut)
    ensures |s| == |v.sectors|
  {
    match cut
    case AtRest => v.sectors
    case InUpdate(total, time) =>
      StoredPrevious(v.sectors, UpdatedTable(v.table, v.fileNumber, total, time), v.fileNumber / 4)
    case InErase(k) => StoredAll(v.sectors, TmatsTable(v.table), k)
  }

  // sinit makes of them a state the allocator can go on from; when that is,
  // StartsSound says exactly.
  ghost predicate Restartable(sectors: seq<Sector>, faults: set<nat>, probe: bool) {
    |sectors| >= RESERVED_BLOCKS && StartsSound(sectors, faults, probe)
  }

  // What the recorder's commands see to before each step.  No step depends on
  // what earlier updates wrote to the cartridge, except for a restart.
  ghost predicate Enabled(probe: bool, v: Vol, op: Op) {
    match op
    case Open(name, date, time) =>
      (v.isOpen || v.fileNumber < MAX_FILES) && IsPadded(name) && IsPadded(date) && IsPadded(time)
    case Publish(_, _, _, _, time) => v.isOpen && IsPadded(time)
    case PublishAll(_, _, _, time) => v.isOpen && IsPadded(time)
    case Capture(a, _) => v.isOpen && a >= v.writeBlock
    case Stop(_) => v.isOpen
    case StopWithNodes(_, nodes, _, _) => probe && v.isOpen && Fits(|nodes|)
    case SClose(_, fill, btmFill, blocksRecorded, time) =>
      v.isOpen && IsPadded(time) && Blocks(ClosingBytes(v.totalBytes, fill, btmFill, blocksRecorded)) < 0x8000_0000
    case Erase(_) => !v.isOpen
    case EraseKeepingTmats => !v.isOpen && v.fileNumber > 0
    case PowerLoss(cut, faults) => Cuttable(v, cut) && Restartable(CutSectors(v, cut), faults, probe)
  }

  ghost function Step(probe: bool, v: Vol, op: Op): Vol
    requires Sound(v) && Enabled(probe, v, op)
  {
    EnabledSteps(probe, v, op);
    match op
    case Open(name, date, time) => Opened(v, name, date, time)
    case Publish(offset, pktLen, present, connected, time) =>
      UpdatedBlocks(v, offset, pktLen, present, connected, time)
    case PublishAll(blocksRecorded, present, connected, time) =>
      UpdatedAll(v, blocksRecorded, present, connected, time)
    case Capture(a, sector) => Captured(v, a, sector)
    case Stop(increment) => EmergencyClosed(v, increment)
    case StopWithNodes(increment, nodes, stale, connected) =>
      NodesWritten(EmergencyClosed(v, increment), nodes, stale, connected)
    case SClose(increment, fill, btmFill, blocksRecorded, time) =>
      SClosed(v, increment, fill, btmFill, blocksRecorded, true, time)
    case Erase(ok) => Erased(v, ok)
    case EraseKeepingTmats => TmatsErased(v)
    case PowerLoss(cut, faults) => PowerCycled(v.(sectors := CutSectors(v, cut)), faults, probe)
  }

  lemma EnabledSteps(probe: bool, v: Vol, op: Op)
    requires Sound(v) && Enabled(probe, v, op)
    ensures op.Open? ==> v.isOpen || CanOpen(v)
    ensures v.isOpen ==> CanUpdate(v)
    ensures |v.table| == MAX_STANAG_BLOCKS && |v.nodeList| == MAX_NUM_FILES && v.fileNumber <= MAX_FILES
  {
    if v.isOpen {
      OpenCanUpdate(v);
    } else if v.fileNumber < MAX_FILES {
      OpenedTableHolds(v.table, Files(v), BLANK_ENTRY);
    }
  }

  lemma OpenCanUpdate(v: Vol)
    requires Sound(v) && v.isOpen
    ensures CanUpdate(v) && Files(v) != [] && v.fileNumber == |Files(v)| - 1 < MAX_FILES
  {
    UpdatedTableHolds(v.table, Files(v), 0, Fill(8, 0xFF));
    hide Holds;
  }

  /* ---------- the list after each step ---------- */

  // The list in memory after a step.
  ghost function NextFiles(v: Vol, op: Op): seq<FileEntry>
    requires (op.Publish? || op.PublishAll? || op.SClose? || op.EraseKeepingTmats?) ==> Files(v) != []
    requires op.PowerLoss? ==> Cuttable(v, op.cut) && |v.sectors| >= RESERVED_BLOCKS
  {
    match op
    case Open(name, date, time) =>
      if v.isOpen then Files(v) else Files(v) + [NewEntry(name, v.writeBlock, date, time)]
    case Publish(offset, pktLen, present, _, time) =>
      if present then Published(Files(v), (offset + pktLen) % TWO64, time) else Files(v)
    case PublishAll(blocksRecorded, present, _, time) =>
      if present then Published(Files(v), blocksRecorded * 512, time) else Files(v)
    case SClose(_, fill, btmFill, blocksRecorded, time) =>
      Published(Files(v), ClosingBytes(v.totalBytes, fill, btmFill, blocksRecorded), time)
    case Erase(_) => []
    case EraseKeepingTmats => [Files(v)[0].(startAddress := RESERVED_BLOCKS)]
    case PowerLoss(cut, faults) => StartList(CutSectors(v, cut), faults)
    case _ => Files(v)
  }

  lemma IsSound(v: Vol, files: seq<FileEntry>)
    requires Inv(v, files)
    ensures Sound(v) && Files(v) == files
  {
    HeldFilesAreScanned(v.table, files);
  }

  // What a step makes of memory.
  ghost predicate Makes(w: Vol, files: seq<FileEntry>) {
    Sound(w) && Files(w) == files
  }

  lemma OpenStep(v: Vol, name: Text56, date: Text8, time: Text8)
    requires Sound(v) && (v.isOpen || v.fileNumber < MAX_FILES)
    requires IsPadded(name) && IsPadded(date) && IsPadded(time)
    ensures v.isOpen || CanOpen(v)
    ensures Makes(Opened(v, name, date, time), NextFiles(v, Open(name, date, time)))
  {
    if !v.isOpen {
      OpenKeepsInv(v, Files(v), name, date, time);
      hide Inv, Opened, Files;
      IsSound(Opened(v, name, date, time), Files(v) + [NewEntry(name, v.writeBlock, date, time)]);
    }
  }

  lemma UpdateStep(v: Vol, total: U64, connected: bool, time: Text8)
    requires Sound(v) && v.isOpen && IsPadded(time)
    ensures CanUpdate(v.(totalBytes := total)) && Files(v) != []
    ensures Makes(Updated(v.(totalBytes := total), time, connected), Published(Files(v), total, time))
  {
    UpdateKeepsInv(v, Files(v), total, time, connected);
    OpenCanUpdate(v);
    hide Inv, Updated, Files, Published;
    IsSound(Updated(v.(totalBytes := total), time, connected), Published(Files(v), total, time));
  }

  lemma PublishStep(v: Vol, offset: U64, pktLen: int, present: bool, connected: bool, time: Text8)
    requires Sound(v) && v.isOpen && IsPadded(time)
    ensures CanUpdate(v) && Files(v) != []
    ensures Makes(UpdatedBlocks(v, offset, pktLen, present, connected, time),
                  NextFiles(v, Publish(offset, pktLen, present, connected, time)))
  {
    OpenCanUpdate(v);
    if present {
      UpdateBlocksKeepsInv(v, Files(v), offset, pktLen, connected, time);
      hide Inv, UpdatedBlocks, Files, Published;
      IsSound(UpdatedBlocks(v, offset, pktLen, present, connected, time),
              Published(Files(v), (offset + pktLen) % TWO64, time));
    }
  }

  lemma PublishAllStep(v: Vol, blocksRecorded: U32, present: bool, connected: bool, time: Text8)
    requires Sound(v) && v.isOpen && IsPadded(time)
    ensures CanUpdate(v) && Files(v) != []
    ensures Makes(UpdatedAll(v, blocksRecorded, present, connected, time),
                  NextFiles(v, PublishAll(blocksRecorded, present, connected, time)))
  {
    OpenCanUpdate(v);
    if present {
      UpdateAllKeepsInv(v, Files(v), blocksRecorded, connected, time);
      hide Inv, UpdatedAll, Files, Published;
      IsSound(UpdatedAll(v, blocksRecorded, present, connected, time), Published(Files(v), blocksRecorded * 512, time));
    }
  }

  lemma CaptureStep(v: Vol, a: nat, sector: Sector)
    requires Sound(v)
    ensures Makes(Captured(v, a, sector), Files(v))
  {
    hide Holds;
  }

  lemma StopStep(v: Vol, increment: bool)
    requires Sound(v) && v.isOpen
    ensures CanUpdate(v)
    ensures Makes(EmergencyClosed(v, increment), Files(v))
    ensures EmergencyClosed(v, increment).writeBlock == EndOfFiles(Files(v))
  {
    OpenCanUpdate(v);
    EmergencyCloseKeepsInv(v, Files(v), increment);
    hide Inv, EmergencyClosed, Files;
    IsSound(EmergencyClosed(v, increment), Files(v));
  }

  // The node file behind a recording just closed.
  ghost predicate NodesFollow(w: Vol, files: seq<FileEntry>, before: Vol, nodes: seq<Node>, connected: bool) {
    var a, blocks := EndOfFiles(files), NodeFileBlocks(|nodes|);
    && w.writeBlock == a + (if connected then blocks + 1 else 0)
    && |w.sectors| == |before.sectors|
    && (forall i :: 0 <= i < |w.sectors| && i < a ==> w.sectors[i] == before.sectors[i])
    && (connected && a + blocks <= |w.sectors| ==> StoredAt(w.sectors, a, nodes))
    && |w.nodeList| == |before.nodeList| && before.fileNumber < |w.nodeList|
    && w.nodeList == before.nodeList[before.fileNumber := a]
  }

  lemma NodesStep(v: Vol, increment: bool, nodes: seq<Node>, stale: Stale, connected: bool)
    requires Sound(v) && v.isOpen && Fits(|nodes|)
    ensures CanUpdate(v) && 1 <= EmergencyClosed(v, increment).fileNumber <= |v.nodeList|
    ensures var w := NodesWritten(EmergencyClosed(v, increment), nodes, stale, connected);
      && Makes(w, Files(v)) && !w.isOpen && w.fileNumber == v.fileNumber + 1
      && NodesFollow(w, Files(v), v, nodes, connected)
  {
    OpenCanUpdate(v);
    EmergencyCloseKeepsInv(v, Files(v), increment);
    var c := EmergencyClosed(v, increment);
    assert c.fileNumber == v.fileNumber + 1 && !c.isOpen && c.sectors == v.sectors && c.nodeList == v.nodeList by {
      hide BlankedTable, Inv;
    }
    assert |v.nodeList| == MAX_NUM_FILES;
    hide EmergencyClosed, Holds, PaddedEntry, Ordered, Placed, StoredAt, Files;
    NodesKeepInv(c, Files(v), nodes, stale, connected);
    var w := NodesWritten(c, nodes, stale, connected);
    assert w.fileNumber == c.fileNumber && !w.isOpen && |w.sectors| == |c.sectors|;
    hide NodesWritten, Inv;
    IsSound(w, Files(v));
  }

  lemma SCloseStep(v: Vol, increment: bool, fill: nat, btmFill: U32, blocksRecorded: U32, time: Text8)
    requires Sound(v) && v.isOpen && IsPadded(time)
    requires Blocks(ClosingBytes(v.totalBytes, fill, btmFill, blocksRecorded)) < 0x8000_0000
    ensures CanUpdate(v) && Files(v) != []
    ensures Makes(SClosed(v, increment, fill, btmFill, blocksRecorded, true, time),
                  NextFiles(v, SClose(increment, fill, btmFill, blocksRecorded, time)))
    ensures SClosed(v, increment, fill, btmFill, blocksRecorded, true, time).writeBlock
         == EndOfFiles(NextFiles(v, SClose(increment, fill, btmFill, blocksRecorded, time)))
  {
    OpenCanUpdate(v);
    SCloseKeepsInv(v, Files(v), increment, fill, btmFill, blocksRecorded, time);
    SCloseCursor(v, Files(v), increment, fill, btmFill, blocksRecorded, true, time);
    hide Inv, SClosed, Files, Published, ClosingBytes, Blocks;
    IsSound(SClosed(v, increment, fill, btmFill, blocksRecorded, true, time),
            Published(Files(v), ClosingBytes(v.totalBytes, fill, btmFill, blocksRecorded), time));
  }

  lemma EraseStep(v: Vol, ok: bool)
    requires Sound(v) && !v.isOpen
    ensures Makes(Erased(v, ok), [])
  {
    EraseKeepsInv(v, Files(v), ok);
    hide Inv, Erased, Files;
    IsSound(Erased(v, ok), []);
  }

  lemma TmatsEraseStep(v: Vol)
    requires Sound(v) && !v.isOpen && v.fileNumber > 0
    ensures Files(v) != [] && |v.table| == MAX_STANAG_BLOCKS
    ensures Makes(TmatsErased(v), [Files(v)[0].(startAddress := RESERVED_BLOCKS)])
  {
    TmatsEraseKeepsInv(v, Files(v));
    hide Inv, TmatsErased, Files;
    IsSound(TmatsErased(v), [Files(v)[0].(startAddress := RESERVED_BLOCKS)]);
  }

  // A restart on the given sectors.
  lemma RestartStep(v: Vol, sectors: seq<Sector>, faults: set<nat>, probe: bool)
    requires Restartable(sectors, faults, probe)
    ensures var w := PowerCycled(v.(sectors := sectors), faults, probe);
      && Makes(w, StartList(sectors, faults)) && w.sectors == sectors && !w.isOpen
      && (StartList(sectors, faults) != [] ==> w.table == LoadAll(sectors))
      && (probe && FindsDirectory(sectors, faults) && Scanned(sectors, faults).ok ==>
            w.nodeList == Scanned(sectors, faults).nodeList)
  {
    var start := v.(sectors := sectors, totalBytes := 0, blocksWritten := 0, nodeList := NoNodeBlocks());
    hide Mounted, Inv, Files, LoadAll, BlockFromImage, StoredFiles, Scanned, Holds, Plausible;
    StartExactly(start, faults, probe);
    IsSound(Mounted(start, faults, probe), StartList(sectors, faults));
    if FindsDirectory(sectors, faults) {
      MountedShape(start, faults, probe);
      if probe && !Scanned(sectors, faults).ok {
        FirstBlockCounts(sectors);
      }
    } else {
      NoDirectoryStartsEmpty(start, faults, probe);
    }
  }

  lemma RestartCursor(v: Vol, sectors: seq<Sector>, faults: set<nat>, probe: bool)
    requires Restartable(sectors, faults, probe)
    ensures PowerCycled(v.(sectors := sectors), faults, probe).writeBlock == StartCursor(sectors, faults, probe)
  {
    var start := v.(sectors := sectors, totalBytes := 0, blocksWritten := 0, nodeList := NoNodeBlocks());
    hide Mounted, Inv, LoadAll, BlockFromImage, StoredFiles, Scanned, Holds, Plausible, EndOfFiles;
    if !FindsDirectory(sectors, faults) {
      NoDirectoryStartsEmpty(start, faults, probe);
    } else if probe && !Scanned(sectors, faults).ok {
      FailedStart(start, faults);
      NoFilesEnd();
    } else {
      LoadedStart(start, faults, probe, StoredFiles(sectors));
    }
  }

  lemma NoFilesEnd()
    ensures EndOfFiles([]) == RESERVED_BLOCKS
  {
  }

  /* ---------- every run ---------- */

  lemma RecordingStepIsSound(probe: bool, v: Vol, op: Op)
    requires Sound(v) && Enabled(probe, v, op)
    requires op.Open? || op.Publish? || op.PublishAll? || op.Capture?
    ensures op.Publish? || op.PublishAll? ==> Files(v) != []
    ensures Makes(Step(probe, v, op), NextFiles(v, op))
  {
    EnabledSteps(probe, v, op);
    hide Sound, Files, Makes, Opened, CanOpen, CanUpdate, UpdatedBlocks, UpdatedAll, Captured;
    match op
    case Open(name, date, time) => OpenStep(v, name, date, time);
    case Publish(offset, pktLen, present, connected, time) =>
      PublishStep(v, offset, pktLen, present, connected, time);
    case PublishAll(blocksRecorded, present, connected, time) =>
      PublishAllStep(v, blocksRecorded, present, connected, time);
    case Capture(a, sector) => CaptureStep(v, a, sector);
  }

  lemma ClosingStepIsSound(probe: bool, v: Vol, op: Op)
    requires Sound(v) && Enabled(probe, v, op)
    requires op.Stop? || op.StopWithNodes? || op.SClose?
    ensures Files(v) != []
    ensures Makes(Step(probe, v, op), NextFiles(v, op))
  {
    EnabledSteps(probe, v, op);
    OpenCanUpdate(v);
    hide Sound, Files, Makes, EmergencyClosed, NodesWritten, SClosed, CanUpdate, ClosingBytes, Blocks;
    match op
    case Stop(increment) => StopStep(v, increment);
    case StopWithNodes(increment, nodes, stale, connected) => NodesStep(v, increment, nodes, stale, connected);
    case SClose(increment, fill, btmFill, blocksRecorded, time) =>
      SCloseStep(v, increment, fill, btmFill, blocksRecorded, time);
  }

  lemma RestartingStepIsSound(probe: bool, v: Vol, op: Op)
    requires Sound(v) && Enabled(probe, v, op)
    requires op.Erase? || op.EraseKeepingTmats? || op.PowerLoss?
    ensures op.EraseKeepingTmats? ==> Files(v) != []
    ensures Makes(Step(probe, v, op), NextFiles(v, op))
  {
    EnabledSteps(probe, v, op);
    assert |v.sectors| >= RESERVED_BLOCKS;
    hide Sound, Files, Makes, Erased, TmatsErased, CutSectors, Cuttable, Restartable, PowerCycled, DirectoryReadable;
    match op
    case Erase(ok) => EraseStep(v, ok);
    case EraseKeepingTmats => TmatsEraseStep(v);
    case PowerLoss(cut, faults) => RestartStep(v, CutSectors(v, cut), faults, probe);
  }

  // Every enabled step keeps the allocator invariant, whatever is on the
  // cartridge, and makes exactly this list.
  lemma StepKeepsSound(probe: bool, v: Vol, op: Op)
    requires Sound(v) && Enabled(probe, v, op)
    ensures op.Publish? || op.PublishAll? || op.SClose? || op.EraseKeepingTmats? ==> Files(v) != []
    ensures Makes(Step(probe, v, op), NextFiles(v, op))
  {
    hide Sound, Enabled, Step, Files, NextFiles, Makes;
    if op.Open? || op.Publish? || op.PublishAll? || op.Capture? {
      RecordingStepIsSound(probe, v, op);
    } else if op.Stop? || op.StopWithNodes? || op.SClose? {
      ClosingStepIsSound(probe, v, op);
    } else {
      RestartingStepIsSound(probe, v, op);
    }
  }

  predicate StaysOpen(op: Op) {
    op.Publish? || op.PublishAll? || op.Capture?
  }

  lemma OpenAfter(probe: bool, v: Vol, op: Op)
    requires Sound(v) && Enabled(probe, v, op)
    ensures Step(probe, v, op).isOpen <==> op.Open? || StaysOpen(op)
  {
    EnabledSteps(probe, v, op);
    assert StaysOpen(op) ==> v.isOpen;
    if op.StopWithNodes? {
      NodesStep(v, op.increment, op.nodes, op.stale, op.connected);
    } else if op.PowerLoss? {
      assert |v.sectors| >= RESERVED_BLOCKS;
      RestartStep(v, CutSectors(v, op.cut), op.faults, probe);
    } else {
      hide OpenedTable, UpdatedTable, BlankedTable, StoredCurrent, Blocks, ClosingBytes, InitTable, TmatsTable,
           StoredAll, Int32, Files, Sound;
    }
  }

  // ops can be performed one after the other from v on.
  ghost predicate Possible(probe: bool, v: Vol, ops: seq<Op>)
    decreases |ops|
  {
    ops == [] || (Sound(v) && Enabled(probe, v, ops[0]) && Possible(probe, Step(probe, v, ops[0]), ops[1..]))
  }

  ghost function Run(probe: bool, v: Vol, ops: seq<Op>): Vol
    requires Possible(probe, v, ops)
    decreases |ops|
  {
    if ops == [] then v else Run(probe, Step(probe, v, ops[0]), ops[1..])
  }

  // The allocator invariant over every run, in both configurations: whatever
  // was opened, updated with or without success, closed, erased or cut off by
  // a loss of power.
  lemma {:induction false} RunKeepsSound(probe: bool, v: Vol, ops: seq<Op>)
    requires Sound(v) && Possible(probe, v, ops)
    ensures Sound(Run(probe, v, ops))
    decreases |ops|
  {
    hide Sound, Enabled, Step;
    if ops != [] {
      StepIsSound(probe, v, ops[0]);
      RunKeepsSound(probe, Step(probe, v, ops[0]), ops[1..]);
    }
  }

  lemma StepIsSound(probe: bool, v: Vol, op: Op)
    requires Sound(v) && Enabled(probe, v, op)
    ensures Sound(Step(probe, v, op))
  {
    StepKeepsSound(probe, v, op);
    hide Sound, Enabled, Step, Files, NextFiles;
  }

  // File i lies behind the directory and before file k, and the write cursor
  // is behind file k, or at its start while it is open.
  predicate Apart(w: Vol, i: nat, k: nat)
    requires i < k < |Files(w)|
  {
    && RESERVED_BLOCKS <= Files(w)[i].startAddress <= End(Files(w)[i]) <= Files(w)[k].startAddress
    && (if w.isOpen && k == |Files(w)| - 1 then Files(w)[k].startAddress == w.writeBlock
        else End(Files(w)[k]) <= w.writeBlock)
  }

  lemma ExtentsApart(w: Vol, i: nat, k: nat)
    requires Sound(w) && i < k < |Files(w)|
    ensures Apart(w, i, k)
  {
    var files := Files(w);
    hide Holds, PaddedEntry, Placed, Files;
    ExtentsAreDisjoint(files, i, k);
    EndBound(files, k);
    if k < |files| - 1 {
      ExtentsAreDisjoint(files, k, |files| - 1);
    }
  }

  // In every state of every run no two recordings share a block, none reaches
  // into the directory, and the write cursor bounds them all.
  lemma {:induction false} ExtentsInEveryRun(probe: bool, v: Vol, ops: seq<Op>, i: nat, k: nat)
    requires Sound(v) && Possible(probe, v, ops)
    requires i < k < |Files(Run(probe, v, ops))|
    ensures Apart(Run(probe, v, ops), i, k)
  {
    RunKeepsSound(probe, v, ops);
    hide Possible, Run, Enabled, Apart, Files, Sound;
    ExtentsApart(Run(probe, v, ops), i, k);
  }
}
