// The recorder's command state machine (M23_Controller.c, with playback of
// M23_Utilities.c and the recording part of the control loop of M23_Control.c),
// composed with the directory.
module Recorder {
  import opened Bytes
  import opened DirectoryFormat
  import opened Directory
  import opened DiskIo
  import opened NodeFile
  import opened Volume
  import opened VolumeInvariant
  import Runs
  import Backing
  import Tally
  import opened DiskGuard

  datatype Status = Idle | BuiltInTesting | Erasing | Declassifying | Recording | Playing | RecordAndPlay | Error | Fail

  // keepsNodes: the configuration, which writes node files and looks for them
  // at the next start; recordGo is RECORD_GO of the cartridge interface, toDisk
  // RECORD_TO_DISK of the controller.
  datatype Rec = Rec(keepsNodes: bool, status: Status, recordGo: bool, toDisk: bool, vol: Vol)

  datatype Reply = Done | InvalidMode | NoMedia | MemoryFull | CommandFailed

  // M23_SetRecorderState: a recording can only be joined by playback.
  function StateSet(prior: Status, status: Status): Status {
    if prior != Recording || status == RecordAndPlay then status else prior
  }

  predicate InRecord(s: Status) {
    s == Recording || s == RecordAndPlay
  }

  function TotalBlocks(available: U32): U32 {
    (available - RESERVED_BLOCKS) % 0x1_0000_0000
  }

  /* ---------- commands ---------- */

  // What the hardware and the setup contribute to a command.
  datatype Command =
    | Record(name: Text56, date: Text8, time: Text8, tmatsLoaded: bool, connected: bool, available: U32)
    | Stop(root: LastRoot, nodes: NodeDump)
    | Update(publication: Publication)
    | StartPlayback
    | StopPlayback
    | Erase(keepTmats: bool, ok: bool)  // ok: the cartridge carries it out
    | BuiltInTest
    | Finished(ok: bool)      // of a test, an erase or a declassification
    | Declassify(ok: bool)
    | StatusQuery
    | DataRecorded(address: nat, sector: Sector)   // the hardware writes behind the open file's start
    | PowerLoss(cut: Runs.Cut, faults: set<nat>)   // and sinit at the next start

  // The last root a stop waits for, and the node file it writes.
  datatype LastRoot = NoRoot | LastRoot(offset: U64, pktLen: int, present: bool, connected: bool, time: Text8)
  datatype NodeDump = NoNodes | Dump(nodes: DumpedNodes, stale: Stale, connected: bool)

  // Node lists that fit the buffer; the code overruns it with longer ones.
  type DumpedNodes = nodes: seq<Node> | Fits(|nodes|)

  // Publications of the control loop, with and without an index.
  datatype Publication =
    | Indexed(offset: U64, pktLen: int, present: bool, connected: bool, time: Text8)
    | Counted(blocks: U32, present: bool, connected: bool, time: Text8)

  predicate CanRecord(s: Status) {
    s == Idle || s == Error || s == Playing
  }

  // Record and RecordFile.
  function Recorded(r: Rec, c: Command): (Rec, Reply)
    requires c.Record? && (CanRecord(r.status) && !r.vol.isOpen ==> CanOpen(r.vol))
  {
    if !CanRecord(r.status) || !c.tmatsLoaded then (r, InvalidMode)
    else if !c.connected then (r, NoMedia)
    else if !Accepts(TotalBlocks(c.available), UsedBlocks(r.vol)) then (r.(status := Error), MemoryFull)
    else if r.vol.isOpen then (r.(status := Error), CommandFailed)
    else (r.(status := if r.status == Playing then RecordAndPlay else Recording, recordGo := true, toDisk := true,
             vol := Opened(r.vol, c.name, c.date, c.time)), Done)
  }

  function Publishing(v: Vol, p: Publication): Vol
    requires CanUpdate(v)
  {
    match p
    case Indexed(offset, pktLen, present, connected, time) =>
      if offset > 0 then UpdatedBlocks(v, offset, pktLen, present, connected, time) else v
    case Counted(blocks, present, connected, time) => UpdatedAll(v, blocks, present, connected, time)
  }

  // Stop and Emergency_Stop.
  function Stopped(r: Rec, root: LastRoot, nodes: NodeDump): Rec
    requires |r.vol.table| == MAX_STANAG_BLOCKS && r.vol.fileNumber < MAX_NUM_FILES
    requires |r.vol.nodeList| == MAX_NUM_FILES
    requires Publishes(root) ==> CanUpdate(r.vol)
  {
    r.(status := if r.status == RecordAndPlay then Playing else Idle, recordGo := false, toDisk := false,
       vol := Closed(RootPublished(r.vol, root), nodes))
  }

  // The stop finds a root that it publishes.
  predicate Publishes(root: LastRoot) {
    root.LastRoot? && root.offset > 0 && root.present
  }

  function RootPublished(v: Vol, root: LastRoot): Vol
    requires Publishes(root) ==> CanUpdate(v)
  {
    if Publishes(root) then UpdatedBlocks(v, root.offset, root.pktLen, true, root.connected, root.time) else v
  }

  function Closed(v: Vol, nodes: NodeDump): Vol
    requires |v.table| == MAX_STANAG_BLOCKS && v.fileNumber < MAX_NUM_FILES && |v.nodeList| == MAX_NUM_FILES
  {
    var c := EmergencyClosed(v, true);
    if nodes.Dump? then NodesWritten(c, nodes.nodes, nodes.stale, nodes.connected) else c
  }

  // For an empty node list it does not matter what the buffer held.
  lemma SameStop(r: Rec, root: LastRoot, stale: Stale, other: Stale, connected: bool)
    requires |r.vol.table| == MAX_STANAG_BLOCKS && r.vol.fileNumber < MAX_NUM_FILES
    requires |r.vol.nodeList| == MAX_NUM_FILES && (Publishes(root) ==> CanUpdate(r.vol))
    ensures Stopped(r, root, Dump([], stale, connected)) == Stopped(r, root, Dump([], other, connected))
  {
    var c := EmergencyClosed(RootPublished(r.vol, root), true);
    hide RootPublished, BlankedTable, Blocks;
    SameNodeSectors(WriteAt(c.sectors, c.writeBlock, DEAD_SECTOR), c.writeBlock, [], stale, other, NodeFileBlocks(0));
    hide NodeSectors;
  }

  function PlaybackStarted(r: Rec): Rec {
    r.(status := StateSet(r.status, if r.status == Recording then RecordAndPlay else Playing))
  }

  function PlaybackStopped(r: Rec): Rec {
    r.(status := StateSet(r.status, if r.status == RecordAndPlay then Recording else Idle))
  }

  function Erasure(r: Rec, keepTmats: bool, ok: bool): (Rec, Reply)
    requires |r.vol.table| == MAX_STANAG_BLOCKS
  {
    if r.status != Idle && r.status != Error then (r, InvalidMode)
    else (r.(status := Erasing, vol := if keepTmats then TmatsErased(r.vol) else Erased(r.vol, ok)), Done)
  }

  function Tested(r: Rec): (Rec, Reply) {
    if r.status == Idle || r.status == Error || r.status == Fail then (r.(status := BuiltInTesting), Done)
    else (r, InvalidMode)
  }

  function Declassified(r: Rec, ok: bool): (Rec, Reply) {
    if r.status != Idle && r.status != Error then (r, InvalidMode)
    else if ok then (r.(status := Declassifying), Done)
    else (r, CommandFailed)
  }

  function Queried(r: Rec): Rec {
    if r.status == Error || r.status == Fail then r.(status := Idle) else r
  }

  /* ---------- commands as volume operations ---------- */

  // The directory operations of Runs that a command performs.
  function OpsOf(r: Rec, c: Command): seq<Runs.Op> {
    match c
    case Record(name, date, time, tmatsLoaded, connected, available) =>
      if CanRecord(r.status) && tmatsLoaded && connected && Accepts(TotalBlocks(available), UsedBlocks(r.vol))
         && !r.vol.isOpen
      then [Runs.Open(name, date, time)] else []
    case Stop(root, nodes) => RootOps(root) + [CloseOp(nodes)]
    case Update(p) => PublicationOps(p)
    case Erase(keepTmats, ok) =>
      if r.status != Idle && r.status != Error then []
      else if keepTmats then [Runs.EraseKeepingTmats] else [Runs.Erase(ok)]
    case DataRecorded(a, sector) => [Runs.Capture(a, sector)]
    case PowerLoss(cut, faults) => [Runs.PowerLoss(cut, faults)]
    case _ => []
  }

  function CloseOp(nodes: NodeDump): Runs.Op {
    if nodes.Dump? then Runs.StopWithNodes(true, nodes.nodes, nodes.stale, nodes.connected) else Runs.Stop(true)
  }

  function RootOps(root: LastRoot): seq<Runs.Op> {
    if root.LastRoot? && root.offset > 0 then
      [Runs.Publish(root.offset, root.pktLen, root.present, root.connected, root.time)]
    else []
  }

  function PublicationOps(p: Publication): seq<Runs.Op> {
    match p
    case Indexed(offset, pktLen, present, connected, time) =>
      if offset > 0 then [Runs.Publish(offset, pktLen, present, connected, time)] else []
    case Counted(blocks, present, connected, time) => [Runs.PublishAll(blocks, present, connected, time)]
  }

  // When a command is issued: a stop and an update only while recording,
  // playback only from a state it can start in; and its directory operations
  // must be possible, whatever of them reaches the cartridge.
  ghost predicate Issued(r: Rec, c: Command) {
    && Runs.Possible(r.keepsNodes, r.vol, OpsOf(r, c))
    && match c
       case Record(_, _, _, _, _, _) => r.vol.fileNumber < MAX_FILES
       case Stop(_, _) => InRecord(r.status)
       case Update(_) => InRecord(r.status)
       case StartPlayback => r.status == Idle || r.status == Error || r.status == Recording
       case Finished(_) => r.status == BuiltInTesting || r.status == Erasing || r.status == Declassifying
       case _ => true
  }

  // A file is open iff the recorder is recording iff both recording bits are
  // set.
  predicate Coupled(r: Rec) {
    && (r.vol.isOpen <==> InRecord(r.status))
    && (r.recordGo <==> InRecord(r.status))
    && (r.toDisk <==> InRecord(r.status))
  }

  ghost predicate Good(r: Rec) {
    Coupled(r) && Runs.Sound(r.vol)
  }

  lemma GoodShape(r: Rec)
    requires Good(r)
    ensures |r.vol.table| == MAX_STANAG_BLOCKS && |r.vol.nodeList| == MAX_NUM_FILES && r.vol.fileNumber <= MAX_FILES
    ensures r.vol.isOpen ==> CanUpdate(r.vol) && r.vol.fileNumber < MAX_FILES
    ensures !r.vol.isOpen && r.vol.fileNumber < MAX_FILES ==> CanOpen(r.vol)
    ensures !r.vol.isOpen ==> r.vol.blocksWritten == 0
    ensures |Runs.Files(r.vol)| == r.vol.fileNumber + if r.vol.isOpen then 1 else 0
  {
    if r.vol.isOpen {
      Runs.OpenCanUpdate(r.vol);
    } else if r.vol.fileNumber < MAX_FILES {
      OpenedTableHolds(r.vol.table, Runs.Files(r.vol), BLANK_ENTRY);
    }
    hide LoadAll, BlockFromImage;
  }

  ghost predicate Defined(r: Rec, c: Command) {
    && |r.vol.table| == MAX_STANAG_BLOCKS && |r.vol.nodeList| == MAX_NUM_FILES
    && (c.Record? && CanRecord(r.status) && !r.vol.isOpen ==> CanOpen(r.vol))
    && (c.Stop? ==> r.vol.fileNumber < MAX_NUM_FILES && CanUpdate(r.vol))
    && (c.Update? ==> CanUpdate(r.vol))
    && (c.PowerLoss? ==> Runs.Cuttable(r.vol, c.cut))
  }

  ghost function Next(r: Rec, c: Command): (Rec, Reply)
    requires Defined(r, c)
  {
    match c
    case Record(_, _, _, _, _, _) => Recorded(r, c)
    case Stop(root, nodes) => (Stopped(r, root, nodes), Done)
    case Update(p) => (r.(vol := Publishing(r.vol, p)), Done)
    case StartPlayback => (PlaybackStarted(r), Done)
    case StopPlayback => (PlaybackStopped(r), Done)
    case Erase(keepTmats, ok) => Erasure(r, keepTmats, ok)
    case BuiltInTest => Tested(r)
    case Finished(ok) => (r.(status := StateSet(r.status, if ok then Idle else Fail)), Done)
    case Declassify(ok) => Declassified(r, ok)
    case StatusQuery => (Queried(r), Done)
    case DataRecorded(a, sector) => (r.(vol := Captured(r.vol, a, sector)), Done)
    case PowerLoss(cut, faults) =>
      (r.(status := Idle, recordGo := false, toDisk := false,
          vol := PowerCycled(r.vol.(sectors := Runs.CutSectors(r.vol, cut)), faults, r.keepsNodes)), Done)
  }

  lemma Callable(r: Rec, c: Command)
    requires Good(r) && Issued(r, c)
    ensures Defined(r, c)
  {
    GoodShape(r);
    if c.PowerLoss? {
      LossIsCuttable(r.keepsNodes, r.vol, c.cut, c.faults);
    }
    hide Runs.Sound, Runs.Possible, Runs.Cuttable;
  }

  ghost function Answered(r: Rec, c: Command): (Rec, Reply)
    requires Good(r) && Issued(r, c)
  {
    Callable(r, c);
    Next(r, c)
  }

  ghost function After(r: Rec, c: Command): Rec
    requires Good(r) && Issued(r, c)
  {
    Answered(r, c).0
  }

  lemma {:induction false} LossIsCuttable(probe: bool, v: Vol, cut: Runs.Cut, faults: set<nat>)
    requires Runs.Possible(probe, v, [Runs.PowerLoss(cut, faults)])
    ensures Runs.Cuttable(v, cut)
  {
    RunOfOne(probe, v, Runs.PowerLoss(cut, faults));
    hide Runs.Possible, Runs.Sound, Runs.Cuttable, Runs.Restartable;
  }

  lemma {:induction false} RunOfOne(probe: bool, v: Vol, op: Runs.Op)
    requires Runs.Possible(probe, v, [op])
    ensures Runs.Sound(v) && Runs.Enabled(probe, v, op) && Runs.Run(probe, v, [op]) == Runs.Step(probe, v, op)
  {
    hide Runs.Sound, Runs.Enabled, Runs.Step;
    assert [op][1..] == [];
  }

  lemma {:induction false} RunOfTwo(probe: bool, v: Vol, a: Runs.Op, b: Runs.Op)
    requires Runs.Possible(probe, v, [a] + [b])
    ensures Runs.Sound(v) && Runs.Enabled(probe, v, a) && Runs.Possible(probe, Runs.Step(probe, v, a), [b])
    ensures Runs.Run(probe, v, [a] + [b]) == Runs.Run(probe, Runs.Step(probe, v, a), [b])
  {
    hide Runs.Sound, Runs.Enabled, Runs.Step;
    assert ([a] + [b])[1..] == [b];
  }

  // What a command does to the directory is a run of the directory's own
  // operations.
  lemma CommandRunsItsOps(r: Rec, c: Command)
    requires Good(r) && Issued(r, c)
    ensures After(r, c).vol == Runs.Run(r.keepsNodes, r.vol, OpsOf(r, c))
  {
    Callable(r, c);
    match c
    case Record(_, _, _, _, _, _) => RecordRunsItsOps(r, c);
    case Stop(root, nodes) => StopRunsItsOps(r, c);
    case Update(p) => UpdateRunsItsOps(r, c);
    case Erase(_, _) => EraseRunsItsOps(r, c);
    case _ => RestRunsItsOps(r, c);
  }

  lemma RestRunsItsOps(r: Rec, c: Command)
    requires Good(r) && Issued(r, c) && !c.Record? && !c.Stop? && !c.Update? && !c.Erase?
    ensures After(r, c).vol == Runs.Run(r.keepsNodes, r.vol, OpsOf(r, c))
  {
    Callable(r, c);
    assert Runs.Possible(r.keepsNodes, r.vol, OpsOf(r, c));
    hide Good, Issued, Runs.Possible, Runs.Run;
    RunOfNone(r.keepsNodes, r.vol);
    if c.DataRecorded? {
      CaptureIsStep(r.keepsNodes, r.vol, c.address, c.sector);
    } else if c.PowerLoss? {
      PowerLossIsStep(r.keepsNodes, r.vol, c.cut, c.faults);
    }
  }

  lemma {:induction false} CaptureIsStep(probe: bool, v: Vol, a: nat, sector: Sector)
    requires Runs.Possible(probe, v, [Runs.Capture(a, sector)])
    ensures Runs.Run(probe, v, [Runs.Capture(a, sector)]) == Captured(v, a, sector)
  {
    hide Runs.Sound, Runs.Possible, Runs.Run, Captured;
    RunOfOne(probe, v, Runs.Capture(a, sector));
  }

  lemma {:induction false} PowerLossIsStep(probe: bool, v: Vol, cut: Runs.Cut, faults: set<nat>)
    requires Runs.Possible(probe, v, [Runs.PowerLoss(cut, faults)]) && Runs.Cuttable(v, cut)
    ensures Runs.Run(probe, v, [Runs.PowerLoss(cut, faults)])
         == PowerCycled(v.(sectors := Runs.CutSectors(v, cut)), faults, probe)
  {
    hide Runs.Sound, Runs.Possible, Runs.Run, Runs.Cuttable, Runs.CutSectors, PowerCycled;
    RunOfOne(probe, v, Runs.PowerLoss(cut, faults));
  }

  lemma RecordRunsItsOps(r: Rec, c: Command)
    requires Good(r) && Issued(r, c) && c.Record?
    ensures After(r, c).vol == Runs.Run(r.keepsNodes, r.vol, OpsOf(r, c))
  {
    Callable(r, c);
    hide Runs.Sound, Runs.Enabled, Runs.Possible, Runs.Run, Opened, CanOpen, Coupled;
    if OpsOf(r, c) != [] {
      RunOfOne(r.keepsNodes, r.vol, OpsOf(r, c)[0]);
    } else {
      RunOfNone(r.keepsNodes, r.vol);
    }
  }

  lemma {:induction false} RunOfNone(probe: bool, v: Vol)
    ensures Runs.Possible(probe, v, []) && Runs.Run(probe, v, []) == v
  {
  }

  lemma UpdateRunsItsOps(r: Rec, c: Command)
    requires Good(r) && Issued(r, c) && c.Update?
    ensures After(r, c).vol == Runs.Run(r.keepsNodes, r.vol, OpsOf(r, c))
  {
    Callable(r, c);
    hide Runs.Sound, Runs.Enabled, Runs.Possible, Runs.Run, UpdatedBlocks, UpdatedAll, CanUpdate, Coupled;
    RunOfNone(r.keepsNodes, r.vol);
    if OpsOf(r, c) != [] {
      RunOfOne(r.keepsNodes, r.vol, OpsOf(r, c)[0]);
    }
  }

  lemma EraseRunsItsOps(r: Rec, c: Command)
    requires Good(r) && Issued(r, c) && c.Erase?
    ensures After(r, c).vol == Runs.Run(r.keepsNodes, r.vol, OpsOf(r, c))
  {
    Callable(r, c);
    hide Runs.Sound, Runs.Enabled, Runs.Possible, Runs.Run, Erased, TmatsErased, Coupled;
    RunOfNone(r.keepsNodes, r.vol);
    if OpsOf(r, c) != [] {
      RunOfOne(r.keepsNodes, r.vol, OpsOf(r, c)[0]);
    }
  }

  lemma StopRunsItsOps(r: Rec, c: Command)
    requires Good(r) && Issued(r, c) && c.Stop?
    ensures After(r, c).vol == Runs.Run(r.keepsNodes, r.vol, OpsOf(r, c))
  {
    Callable(r, c);
    hide Runs.Sound, Runs.Possible, Runs.Run, Closed, RootPublished, CanUpdate, Coupled, RootOps;
    StopIsRun(r.keepsNodes, r.vol, c.root, c.nodes);
  }

  lemma CloseIsStep(probe: bool, v: Vol, nodes: NodeDump)
    requires Runs.Sound(v) && Runs.Enabled(probe, v, CloseOp(nodes))
    requires |v.table| == MAX_STANAG_BLOCKS && v.fileNumber < MAX_NUM_FILES && |v.nodeList| == MAX_NUM_FILES
    ensures Closed(v, nodes) == Runs.Step(probe, v, CloseOp(nodes))
  {
    hide Runs.Sound, NodesWritten, EmergencyClosed;
  }

  lemma {:induction false} StopIsRun(probe: bool, v: Vol, root: LastRoot, nodes: NodeDump)
    requires Runs.Possible(probe, v, RootOps(root) + [CloseOp(nodes)]) && CanUpdate(v) && |v.nodeList| == MAX_NUM_FILES
    ensures Closed(RootPublished(v, root), nodes) == Runs.Run(probe, v, RootOps(root) + [CloseOp(nodes)])
  {
    var close := CloseOp(nodes);
    hide Runs.Sound, Runs.Enabled, Runs.Possible, Runs.Run, Runs.Step, Closed, UpdatedBlocks, CloseOp;
    if RootOps(root) == [] {
      assert RootOps(root) + [close] == [close];
      RunOfOne(probe, v, close);
      CloseIsStep(probe, v, nodes);
    } else {
      RunOfTwo(probe, v, RootOps(root)[0], close);
      RootIsStep(probe, v, root);
      RunOfOne(probe, Runs.Step(probe, v, RootOps(root)[0]), close);
      CloseIsStep(probe, RootPublished(v, root), nodes);
    }
  }

  lemma RootIsStep(probe: bool, v: Vol, root: LastRoot)
    requires CanUpdate(v) && RootOps(root) != [] && Runs.Sound(v) && Runs.Enabled(probe, v, RootOps(root)[0])
    ensures RootPublished(v, root) == Runs.Step(probe, v, RootOps(root)[0])
    ensures RootPublished(v, root).nodeList == v.nodeList && RootPublished(v, root).fileNumber == v.fileNumber
    ensures |RootPublished(v, root).table| == MAX_STANAG_BLOCKS
  {
    hide Runs.Sound, UpdatedTable, StoredCurrent;
  }

  /* ---------- every command keeps the coupling ---------- */

  lemma ClosedIsClosed(v: Vol, nodes: NodeDump)
    requires |v.table| == MAX_STANAG_BLOCKS && v.fileNumber < MAX_NUM_FILES && |v.nodeList| == MAX_NUM_FILES
    ensures !Closed(v, nodes).isOpen && Closed(v, nodes).fileNumber == v.fileNumber + 1
  {
    hide BlankedTable, NodeSectors;
  }

  lemma PublishingKeepsOpen(v: Vol, p: Publication)
    requires CanUpdate(v)
    ensures Publishing(v, p).isOpen == v.isOpen
  {
    hide UpdatedTable, StoredCurrent;
  }

  lemma ErasedIsClosed(v: Vol, ok: bool)
    requires |v.table| == MAX_STANAG_BLOCKS
    ensures !Erased(v, ok).isOpen && !TmatsErased(v).isOpen
  {
    hide InitTable, TmatsTable, StoredAll;
  }

  lemma RootPublishedShape(v: Vol, root: LastRoot)
    requires |v.table| == MAX_STANAG_BLOCKS && (Publishes(root) ==> CanUpdate(v))
    ensures var u := RootPublished(v, root);
      |u.table| == MAX_STANAG_BLOCKS && u.fileNumber == v.fileNumber && u.nodeList == v.nodeList && u.isOpen == v.isOpen
  {
    hide UpdatedTable, StoredCurrent;
  }

  lemma StopKeepsCoupling(r: Rec, root: LastRoot, nodes: NodeDump)
    requires |r.vol.table| == MAX_STANAG_BLOCKS && r.vol.fileNumber < MAX_NUM_FILES && |r.vol.nodeList| == MAX_NUM_FILES
    requires (Publishes(root) ==> CanUpdate(r.vol)) && InRecord(r.status)
    ensures Coupled(Stopped(r, root, nodes))
  {
    RootPublishedShape(r.vol, root);
    ClosedIsClosed(RootPublished(r.vol, root), nodes);
    hide Closed, RootPublished;
  }

  lemma RecordKeepsCoupling(r: Rec, c: Command)
    requires Coupled(r) && c.Record? && (CanRecord(r.status) && !r.vol.isOpen ==> CanOpen(r.vol))
    ensures Coupled(Recorded(r, c).0)
  {
    hide OpenedTable, Accepts, UsedBlocks, TotalBlocks;
  }

  lemma CommandKeepsCoupling(r: Rec, c: Command)
    requires Good(r) && Issued(r, c)
    ensures Coupled(After(r, c))
  {
    hide Runs.Sound, Runs.Possible, CanOpen, CanUpdate, Stopped, Recorded, Publishing, Erased, TmatsErased,
         PowerCycled, Runs.Cuttable, Runs.CutSectors, OpsOf;
    Callable(r, c);
    match c
    case Record(_, _, _, _, _, _) => RecordKeepsCoupling(r, c);
    case Stop(root, nodes) => StopKeepsCoupling(r, root, nodes);
    case Update(p) => PublishingKeepsOpen(r.vol, p);
    case Erase(_, ok) => ErasedIsClosed(r.vol, ok);
    case DataRecorded(a, sector) =>
    case PowerLoss(cut, faults) =>
      PoweredIsClosed(r.vol.(sectors := Runs.CutSectors(r.vol, cut)), faults, r.keepsNodes);
    case _ =>
  }

  lemma PoweredIsClosed(v: Vol, faults: set<nat>, probe: bool)
    ensures !PowerCycled(v, faults, probe).isOpen
  {
    hide LoadAll, BlockFromImage, FirstEmpty, CountTo, RecoveredWriteBlock, InitTable, Probe, NodeReserve;
  }

  // Every command, issued when it may be, keeps the recorder and the
  // directory in step.
  lemma CommandKeepsGood(r: Rec, c: Command)
    requires Good(r) && Issued(r, c)
    ensures Good(After(r, c))
  {
    Callable(r, c);
    CommandKeepsCoupling(r, c);
    CommandRunsItsOps(r, c);
    hide Runs.Sound, Runs.Possible, Runs.Run, Next, OpsOf, Coupled;
    Runs.RunKeepsSound(r.keepsNodes, r.vol, OpsOf(r, c));
  }

  // A successful Record adds exactly one directory entry, that of the new
  // file at the write cursor; a failed one leaves the directory alone.
  lemma RecordAddsOneEntry(r: Rec, c: Command)
    requires Good(r) && Issued(r, c) && c.Record?
    ensures var (n, reply) := Answered(r, c);
      if reply == Done
      then Runs.Files(n.vol) == Runs.Files(r.vol) + [NewEntry(c.name, r.vol.writeBlock, c.date, c.time)]
      else n.vol == r.vol
  {
    Callable(r, c);
    hide Runs.Sound, Runs.Files, Opened, CanOpen;
    if Next(r, c).1 == Done {
      assert OpsOf(r, c) == [Runs.Open(c.name, c.date, c.time)];
      RunOfOne(r.keepsNodes, r.vol, Runs.Open(c.name, c.date, c.time));
      Runs.OpenStep(r.vol, c.name, c.date, c.time);
    }
  }

  // A record command is carried out exactly when the recorder is idle, in
  // error or playing, a setup and a cartridge are there, and Media would
  // report room.
  lemma RecordSucceeds(r: Rec, c: Command)
    requires Good(r) && Issued(r, c) && c.Record?
    ensures Answered(r, c).1 == Done
        <==> CanRecord(r.status) && c.tmatsLoaded && c.connected
             && Remaining(TotalBlocks(c.available), UsedBlocks(r.vol)) != 0
  {
    Callable(r, c);
    AcceptsIffRoomReported(TotalBlocks(c.available), UsedBlocks(r.vol));
    hide Runs.Sound, Opened, CanOpen;
  }

  // A recording starts at the write cursor with more than the reserve in
  // front of it, so it never reaches the end of the cartridge while the
  // hardware writes no more than the reserve between two turns of the control
  // loop.
  lemma {:induction false} RecordingStaysOnCartridge(r: Rec, c: Command, moves: seq<nat>)
    requires Good(r) && Issued(r, c) && c.Record? && Answered(r, c).1 == Done && AtMost(moves, SYSTEM_BLOCKS_RESERVED)
    ensures Run(TotalBlocks(c.available), After(r, c).vol.writeBlock % 0x1_0000_0000, moves).pointer
         < TotalBlocks(c.available)
  {
    Callable(r, c);
    GoodShape(r);
    assert After(r, c).vol.writeBlock == r.vol.writeBlock && !r.vol.isOpen;
    hide Runs.Sound, Opened, CanOpen, Run;
    assert Accepts(TotalBlocks(c.available), UsedBlocks(r.vol));
    ReserveIsEnough(TotalBlocks(c.available), UsedBlocks(r.vol), moves);
  }

  lemma OtherCommandsKeepCount(r: Rec, c: Command)
    requires Good(r) && Issued(r, c) && !c.Record? && !c.Erase? && !c.PowerLoss?
    ensures |Runs.Files(After(r, c).vol)| == |Runs.Files(r.vol)|
  {
    var n := After(r, c);
    CommandKeepsGood(r, c);
    GoodShape(r);
    GoodShape(n);
    CountAndFileNumber(r, c);
    hide Good, Next, Runs.Files;
  }

  lemma CountAndFileNumber(r: Rec, c: Command)
    requires Good(r) && Issued(r, c) && !c.Record? && !c.Erase? && !c.PowerLoss?
    ensures var n := After(r, c);
      n.vol.fileNumber + (if n.vol.isOpen then 1 else 0) == r.vol.fileNumber + if r.vol.isOpen then 1 else 0
  {
    Callable(r, c);
    assert Coupled(r);
    hide Runs.Sound, Runs.Possible, Good, CanOpen, CanUpdate, Closed, RootPublished, Publishing, Recorded;
    match c
    case Stop(root, nodes) =>
      RootPublishedShape(r.vol, root);
      ClosedIsClosed(RootPublished(r.vol, root), nodes);
    case Update(p) => PublishingKeepsCount(r.vol, p);
    case _ =>
  }

  lemma PublishingKeepsCount(v: Vol, p: Publication)
    requires CanUpdate(v)
    ensures Publishing(v, p).isOpen == v.isOpen && Publishing(v, p).fileNumber == v.fileNumber
  {
    hide UpdatedTable, StoredCurrent;
  }

  /* ---------- every run of commands ---------- */

  ghost predicate Session(r: Rec, commands: seq<Command>)
    decreases |commands|
  {
    commands == [] ||
    (Good(r) && Issued(r, commands[0]) && Session(After(r, commands[0]), commands[1..]))
  }

  ghost function EndOfSession(r: Rec, commands: seq<Command>): Rec
    requires Session(r, commands)
    decreases |commands|
  {
    if commands == [] then r else EndOfSession(After(r, commands[0]), commands[1..])
  }

  // Recordings that were started.
  ghost function Started(r: Rec, commands: seq<Command>): nat
    requires Session(r, commands)
    decreases |commands|
  {
    if commands == [] then 0
    else
      var c := commands[0];
      (if c.Record? && Answered(r, c).1 == Done then 1 else 0) + Started(After(r, c), commands[1..])
  }

  // Over every sequence of commands and losses of power, whatever updates
  // reach the cartridge, a file is open iff the recorder records iff both
  // recording bits are set, and the directory's invariant holds.
  lemma {:induction false} SessionKeepsGood(r: Rec, commands: seq<Command>)
    requires Good(r) && Session(r, commands)
    ensures Good(EndOfSession(r, commands))
    decreases |commands|
  {
    hide Good, Issued, Next;
    if commands != [] {
      CommandKeepsGood(r, commands[0]);
      SessionKeepsGood(After(r, commands[0]), commands[1..]);
    }
  }

  // The directory operations of a session.
  ghost function SessionOps(r: Rec, commands: seq<Command>): seq<Runs.Op>
    requires Session(r, commands)
    decreases |commands|
  {
    if commands == [] then [] else OpsOf(r, commands[0]) + SessionOps(After(r, commands[0]), commands[1..])
  }

  // A session is a run of them: all that holds over every run of the
  // directory holds over every session.
  lemma {:induction false} SessionIsRun(r: Rec, commands: seq<Command>)
    requires Good(r) && Session(r, commands)
    ensures Runs.Possible(r.keepsNodes, r.vol, SessionOps(r, commands))
    ensures EndOfSession(r, commands).vol == Runs.Run(r.keepsNodes, r.vol, SessionOps(r, commands))
    ensures EndOfSession(r, commands).keepsNodes == r.keepsNodes
    decreases |commands|
  {
    if commands == [] {
      RunOfNone(r.keepsNodes, r.vol);
    } else {
      hide Good, OpsOf, Runs.Possible, Runs.Run, Runs.Sound, Runs.Enabled, Runs.Step, After;
      var c := commands[0];
      assert Runs.Possible(r.keepsNodes, r.vol, OpsOf(r, c));
      CommandKeepsGood(r, c);
      CommandRunsItsOps(r, c);
      ConfigurationStays(r, c);
      SessionIsRun(After(r, c), commands[1..]);
      Tally.RunAppend(r.keepsNodes, r.vol, OpsOf(r, c), SessionOps(After(r, c), commands[1..]));
    }
  }

  lemma ConfigurationStays(r: Rec, c: Command)
    requires Good(r) && Issued(r, c)
    ensures After(r, c).keepsNodes == r.keepsNodes
  {
    hide Good, Issued, Opened, Closed, RootPublished, Publishing, Erased, TmatsErased, PowerCycled, Captured,
         Runs.CutSectors, Runs.Cuttable, Accepts, UsedBlocks, TotalBlocks, CanOpen, CanUpdate;
    Callable(r, c);
  }

  // In particular the cartridge holds a list behind the one in memory, as
  // long as every step of the session reaches.
  lemma {:induction false} SessionKeepsBacked(r: Rec, commands: seq<Command>)
    requires Good(r) && Backing.Backed(r.vol) && Session(r, commands)
    ensures Runs.Possible(r.keepsNodes, r.vol, SessionOps(r, commands))
    ensures Backing.AllReach(r.keepsNodes, r.vol, SessionOps(r, commands)) ==>
      Backing.Backed(EndOfSession(r, commands).vol)
  {
    SessionIsRun(r, commands);
    assert Runs.Sound(r.vol);
    var ops := SessionOps(r, commands);
    hide Good, Session, SessionOps, EndOfSession, Runs.Possible, Runs.Run, Runs.Sound, Backing.Backed, Backing.AllReach;
    if Backing.AllReach(r.keepsNodes, r.vol, ops) {
      Backing.RunKeepsBacked(r.keepsNodes, r.vol, ops);
    }
  }

  // Between erases and losses of power the directory grows by exactly the recordings started.
  lemma {:induction false} SessionCountsRecordings(r: Rec, commands: seq<Command>)
    requires Good(r) && Session(r, commands)
    requires forall i :: 0 <= i < |commands| ==> !commands[i].Erase? && !commands[i].PowerLoss?
    ensures |Runs.Files(EndOfSession(r, commands).vol)| == |Runs.Files(r.vol)| + Started(r, commands)
    decreases |commands|
  {
    hide Good, Issued, Runs.Files, Next;
    if commands != [] {
      CommandKeepsGood(r, commands[0]);
      if commands[0].Record? {
        RecordAddsOneEntry(r, commands[0]);
      } else {
        OtherCommandsKeepCount(r, commands[0]);
      }
      SessionCountsRecordings(After(r, commands[0]), commands[1..]);
    }
  }

  /* ---------- where the conditions are needed ---------- */

  // Playback started while playback already runs beside a recording loses
  // the recording from sight: the file stays open under status Playing.
  lemma PlaybackStartNeedsItsStates(r: Rec)
    requires Coupled(r)
    ensures Coupled(PlaybackStarted(r)) <==> r.status != RecordAndPlay
  {
  }

  // As many entries as the file number says.
  ghost predicate CountAgrees(v: Vol) {
    |Runs.Files(v)| == v.fileNumber + if v.isOpen then 1 else 0
  }

  lemma {:induction false} CountsGiveLength(t: seq<DirBlock>, u: seq<DirBlock>, j: nat)
    requires j <= |t| == |u|
    requires forall i :: 0 <= i < |t| ==> t[i].numberOfFileEntries == u[i].numberOfFileEntries
    ensures |FilesFrom(t, j)| == |FilesFrom(u, j)|
    decreases |t| - j
  {
    if j < |t| {
      CountsGiveLength(t, u, j + 1);
    }
  }

  predicate SameCounts(t: seq<DirBlock>, u: seq<DirBlock>) {
    |t| == |u| && forall i :: 0 <= i < |t| ==> t[i].numberOfFileEntries == u[i].numberOfFileEntries
  }

  lemma ClosedCounts(v: Vol, nodes: NodeDump)
    requires |v.table| == MAX_STANAG_BLOCKS && v.fileNumber < MAX_NUM_FILES && |v.nodeList| == MAX_NUM_FILES
    ensures SameCounts(v.table, Closed(v, nodes).table)
  {
    hide NodeSectors;
  }

  lemma RootCounts(v: Vol, root: LastRoot)
    requires |v.table| == MAX_STANAG_BLOCKS && (Publishes(root) ==> CanUpdate(v))
    ensures SameCounts(v.table, RootPublished(v, root).table)
  {
    hide StoredCurrent;
  }

  // A stop leaves as many entries as there were, and counts one more file.
  lemma StoppedCount(r: Rec, root: LastRoot, nodes: NodeDump)
    requires |r.vol.table| == MAX_STANAG_BLOCKS && r.vol.fileNumber < MAX_NUM_FILES && |r.vol.nodeList| == MAX_NUM_FILES
    requires Publishes(root) ==> CanUpdate(r.vol)
    ensures var n := Stopped(r, root, nodes).vol;
      |Runs.Files(n)| == |Runs.Files(r.vol)| && n.fileNumber == r.vol.fileNumber + 1 && !n.isOpen
  {
    var u := RootPublished(r.vol, root);
    RootPublishedShape(r.vol, root);
    RootCounts(r.vol, root);
    ClosedCounts(u, nodes);
    ClosedIsClosed(u, nodes);
    hide Closed, RootPublished;
    CountsGiveLength(r.vol.table, u.table, 0);
    CountsGiveLength(u.table, Closed(u, nodes).table, 0);
  }

  lemma GoodCounts(r: Rec)
    ensures Good(r) ==> CountAgrees(r.vol)
  {
    if Good(r) {
      GoodShape(r);
      hide Good;
    }
  }

  lemma {:induction false} StopIsIssued(r: Rec, root: LastRoot, nodes: NodeDump)
    requires Good(r) && InRecord(r.status) && (nodes.Dump? ==> r.keepsNodes)
    requires root.LastRoot? ==> IsPadded(root.time)
    ensures Issued(r, Stop(root, nodes))
  {
    var probe, v, close := r.keepsNodes, r.vol, CloseOp(nodes);
    assert Coupled(r) && v.isOpen;
    hide Runs.Sound, Runs.Possible, Runs.Step, Runs.Run;
    if RootOps(root) == [] {
      assert RootOps(root) + [close] == [close];
      Tally.RunOfOne(probe, v, close);
    } else {
      var publish := RootOps(root)[0];
      Tally.RunOfOne(probe, v, publish);
      Runs.StepIsSound(probe, v, publish);
      Runs.OpenAfter(probe, v, publish);
      Tally.RunOfOne(probe, Runs.Step(probe, v, publish), close);
      Tally.RunAppend(probe, v, [publish], [close]);
    }
  }

  // A stop without a recording counts a file that does not exist, whatever
  // root it finds, or writes in front of an empty directory block.
  lemma StopNeedsARecording(r: Rec, root: LastRoot, nodes: NodeDump)
    requires Good(r) && (nodes.Dump? ==> r.keepsNodes)
    requires root.LastRoot? ==> IsPadded(root.time)
    ensures |r.vol.table| == MAX_STANAG_BLOCKS && |r.vol.nodeList| == MAX_NUM_FILES
    ensures ((Publishes(root) ==> CanUpdate(r.vol)) && Good(Stopped(r, root, nodes))) <==> InRecord(r.status)
  {
    GoodShape(r);
    assert Coupled(r);
    if InRecord(r.status) {
      StopIsIssued(r, root, nodes);
      Callable(r, Stop(root, nodes));
      hide Good, Issued, Stopped, RootPublished;
      CommandKeepsGood(r, Stop(root, nodes));
    } else if Publishes(root) ==> CanUpdate(r.vol) {
      StoppedCount(r, root, nodes);
      hide Stopped, Runs.Files, Good;
      GoodCounts(Stopped(r, root, nodes));
    }
  }
}
