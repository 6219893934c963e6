// The search for a time in a closed recording, over every run: the block of
// its node file is remembered, also over restarts, and the search of that file
// answers as the one of the list in memory did.
module Lookup {
  import opened Bytes
  import opened DirectoryFormat
  import opened Directory
  import opened NodeFile
  import opened Volume
  import opened VolumeInvariant
  import opened Recovery
  import opened NodeRecovery
  import opened Runs
  import opened Backing
  import opened Layout

  // NodeList names the block of every node file that is there.
  ghost predicate Remembered(v: Vol, tails: seq<Tail>) {
    && |tails| <= |Files(v)| && |tails| <= |v.nodeList|
    && forall k :: 0 <= k < |tails| && tails[k].index.Index? ==> v.nodeList[k] == End(Files(v)[k])
  }

  lemma TailsFit(probe: bool, v: Vol, tails: seq<Tail>)
    requires Sound(v) && Laid(probe, v, tails)
    ensures |tails| <= |Files(v)| && |tails| <= |v.nodeList| == MAX_NUM_FILES
  {
    hide Files, Holds, GapHolds;
  }

  // Steps that change neither NodeList nor the files before the open one.
  predicate KeepsNodeList(op: Op) {
    !op.StopWithNodes? && !op.Erase? && !op.EraseKeepingTmats? && !op.PowerLoss?
  }

  lemma NodeListStays(probe: bool, v: Vol, op: Op)
    requires Sound(v) && Enabled(probe, v, op) && KeepsNodeList(op)
    ensures Step(probe, v, op).nodeList == v.nodeList
  {
    EnabledSteps(probe, v, op);
    hide Sound, Files, OpenedTable, UpdatedTable, BlankedTable, StoredCurrent, Blocks, ClosingBytes, Int32;
  }

  lemma ClosedFilesStay(probe: bool, v: Vol, tails: seq<Tail>, op: Op)
    requires Sound(v) && Laid(probe, v, tails) && Enabled(probe, v, op) && KeepsNodeList(op)
    ensures |tails| <= |Files(v)| && |tails| <= |Files(Step(probe, v, op))|
    ensures forall k :: 0 <= k < |tails| ==> Files(Step(probe, v, op))[k] == Files(v)[k]
  {
    hide Sound, Files, Step, Laid, Published, ClosingBytes, Enabled;
    OnlyOpenFindsItClosed(probe, v, op);
    NumberOfTails(probe, v, tails);
    StepKeepsSound(probe, v, op);
    CountOfFiles(v);
    TailsFit(probe, v, tails);
    match op
    case Publish(offset, pktLen, _, _, time) => PublishedShape(Files(v), (offset + pktLen) % TWO64, time);
    case PublishAll(blocks, _, _, time) => PublishedShape(Files(v), blocks * 512, time);
    case SClose(_, fill, btmFill, blocks, time) =>
      PublishedShape(Files(v), ClosingBytes(v.totalBytes, fill, btmFill, blocks), time);
    case _ =>
  }

  lemma OnlyOpenFindsItClosed(probe: bool, v: Vol, op: Op)
    requires Enabled(probe, v, op) && KeepsNodeList(op)
    ensures op.Open? || v.isOpen
  {
  }

  lemma NumberOfTails(probe: bool, v: Vol, tails: seq<Tail>)
    requires Laid(probe, v, tails)
    ensures |tails| == v.fileNumber
  {
  }

  lemma PlainStepRemembers(probe: bool, v: Vol, tails: seq<Tail>, op: Op)
    requires Sound(v) && Laid(probe, v, tails) && Remembered(v, tails) && Enabled(probe, v, op) && KeepsNodeList(op)
    ensures Remembered(Step(probe, v, op), NextTails(probe, v, tails, op))
  {
    var w, next := Step(probe, v, op), NextTails(probe, v, tails, op);
    PlainTails(probe, v, tails, op);
    hide *;
    NodeListStays(probe, v, op);
    ClosedFilesStay(probe, v, tails, op);
    StepKeepsLaid(probe, v, tails, op);
    StepIsSound(probe, v, op);
    TailsFit(probe, w, next);
    StillRemembered(v, tails, w, next);
  }

  lemma PlainTails(probe: bool, v: Vol, tails: seq<Tail>, op: Op)
    requires Sound(v) && Laid(probe, v, tails) && Enabled(probe, v, op) && KeepsNodeList(op)
    ensures Restorable(probe, v, op)
    ensures NextTails(probe, v, tails, op) == tails || NextTails(probe, v, tails, op) == tails + [NO_TAIL]
  {
    hide Sound, Laid, Enabled;
  }

  lemma StillRemembered(v: Vol, tails: seq<Tail>, w: Vol, next: seq<Tail>)
    requires Remembered(v, tails) && w.nodeList == v.nodeList && (next == tails || next == tails + [NO_TAIL])
    requires |tails| <= |Files(v)| && |next| <= |Files(w)| && |next| <= |w.nodeList|
    requires forall k :: 0 <= k < |tails| ==> Files(w)[k] == Files(v)[k]
    ensures Remembered(w, next)
  {
    hide Files;
  }

  lemma NodesAreRemembered(probe: bool, v: Vol, tails: seq<Tail>, op: Op)
    requires Sound(v) && Laid(probe, v, tails) && Remembered(v, tails) && Enabled(probe, v, op) && op.StopWithNodes?
    ensures Remembered(Step(probe, v, op), NextTails(probe, v, tails, op))
  {
    EnabledSteps(probe, v, op);
    CountOfFiles(v);
    NodesStep(v, op.increment, op.nodes, op.stale, op.connected);
    NumberOfTails(probe, v, tails);
    hide Sound, Files, EmergencyClosed, NodesWritten, Laid, StoredAt;
  }

  lemma ErasedRemembersNothing(probe: bool, v: Vol, tails: seq<Tail>, op: Op)
    requires Sound(v) && Laid(probe, v, tails) && Enabled(probe, v, op) && (op.Erase? || op.EraseKeepingTmats?)
    ensures Remembered(Step(probe, v, op), NextTails(probe, v, tails, op))
  {
    hide Sound, Files, Step, Laid, Enabled, NextFiles;
    StepKeepsLaid(probe, v, tails, op);
    StepIsSound(probe, v, op);
    TailsFit(probe, Step(probe, v, op), NextTails(probe, v, tails, op));
  }

  // A restart finds the node files again.
  lemma RestartRemembers(probe: bool, v: Vol, tails: seq<Tail>, op: Op)
    requires Sound(v) && Laid(probe, v, tails) && Enabled(probe, v, op) && Restorable(probe, v, op) && op.PowerLoss?
    ensures Remembered(Step(probe, v, op), NextTails(probe, v, tails, op))
  {
    StepKeepsLaid(probe, v, tails, op);
    StepIsSound(probe, v, op);
    var w, next := Step(probe, v, op), NextTails(probe, v, tails, op);
    TailsFit(probe, w, next);
    hide Sound, Files, Step, Laid, Enabled, NextTails, CutSectors, Cuttable, FindsDirectory, Restorable;
    forall k | 0 <= k < |next| && next[k].index.Index? ensures w.nodeList[k] == End(Files(w)[k]) {
      FoundAgain(probe, v, tails, op, k);
    }
  }

  lemma FoundAgain(probe: bool, v: Vol, tails: seq<Tail>, op: Op, k: nat)
    requires Sound(v) && Laid(probe, v, tails) && Enabled(probe, v, op) && Restorable(probe, v, op) && op.PowerLoss?
    requires Laid(probe, Step(probe, v, op), NextTails(probe, v, tails, op))
    requires k < |NextTails(probe, v, tails, op)| && NextTails(probe, v, tails, op)[k].index.Index?
    ensures var w := Step(probe, v, op); k < |Files(w)| && k < |w.nodeList| && w.nodeList[k] == End(Files(w)[k])
  {
    var w, next := Step(probe, v, op), NextTails(probe, v, tails, op);
    assert k < |Files(w)| && GapHolds(probe, w.sectors, Files(w)[k], next[k]) by {
      hide Files, Step, NextTails;
    }
    var s := CutSectors(v, op.cut);
    assert FindsDirectory(s, op.faults);
    hide Sound, Files, Stored, Step, Laid, Enabled, NextTails, CutSectors, Cuttable, FindsDirectory, Reaches, Backed,
         Recoverable, StoredAt, CutList, DiskHolds, Scanned, HasNodeFile, LoadAll, Restartable, CutReaches;
    PowerLossKeepsBacked(probe, v, op.cut, op.faults);
    StoredIsOn(w);
    PowerLossIsRestart(probe, v, op.cut, op.faults);
    RestartStep(v, s, op.faults, probe);
    assert probe;
    StoredNodeFileIsFound(w.sectors, Files(w), k, next[k].index.nodes);
    BackedHolds(w);
    RecoverableIsAddressable(Files(w));
    ScannedOnList(s, op.faults, Files(w));
    ListProbed(s, op.faults, Files(w));
  }

  lemma BackedHolds(w: Vol)
    requires Backed(w)
    ensures DiskHolds(w.sectors, Stored(w))
  {
  }

  lemma RecoverableIsAddressable(list: seq<FileEntry>)
    requires Recoverable(list, true)
    ensures Addressable(list)
  {
  }

  lemma ListProbed(s: seq<Sector>, faults: set<nat>, list: seq<FileEntry>)
    requires Restartable(s, faults, true) && FindsDirectory(s, faults) && DiskHolds(s, list) && list != []
    ensures Scanned(s, faults).ok
  {
    FirstBlockOfList(s, list);
    hide LoadAll, BlockFromImage, Scanned, Holds, FindsDirectory;
  }

  // Every step remembers the blocks of the node files, in both configurations.
  lemma StepRemembers(probe: bool, v: Vol, tails: seq<Tail>, op: Op)
    requires Sound(v) && Laid(probe, v, tails) && Remembered(v, tails)
    requires Enabled(probe, v, op) && Restorable(probe, v, op)
    ensures Remembered(Step(probe, v, op), NextTails(probe, v, tails, op))
  {
    hide Sound, Laid, Enabled, Restorable, Step, NextTails, Remembered;
    if op.PowerLoss? {
      RestartRemembers(probe, v, tails, op);
    } else if op.StopWithNodes? {
      NodesAreRemembered(probe, v, tails, op);
    } else if op.Erase? || op.EraseKeepingTmats? {
      ErasedRemembersNothing(probe, v, tails, op);
    } else {
      PlainStepRemembers(probe, v, tails, op);
    }
  }

  lemma {:induction false} RunRemembers(probe: bool, v: Vol, tails: seq<Tail>, ops: seq<Op>)
    requires Sound(v) && Laid(probe, v, tails) && Remembered(v, tails)
    requires Possible(probe, v, ops) && AllRestorable(probe, v, ops)
    ensures Remembered(Run(probe, v, ops), RunTails(probe, v, tails, ops))
    decreases |ops|
  {
    hide Sound, Enabled, Step, Laid, NextTails, Restorable, Remembered;
    if ops != [] {
      StepIsSound(probe, v, ops[0]);
      StepKeepsLaid(probe, v, tails, ops[0]);
      StepRemembers(probe, v, tails, ops[0]);
      RunRemembers(probe, Step(probe, v, ops[0]), NextTails(probe, v, tails, ops[0]), ops[1..]);
    }
  }

  // A blank cartridge, mounted, starts such runs.
  lemma BlankStartsLaid(v: Vol, faults: set<nat>, probe: bool)
    requires |v.sectors| >= RESERVED_BLOCKS && DirectoryReadable(v.sectors, faults)
    requires forall i :: 1 <= i < RESERVED_BLOCKS ==> v.sectors[i] == ZERO_SECTOR
    ensures var w := PowerCycled(v, faults, probe); Sound(w) && Laid(probe, w, []) && Remembered(w, [])
  {
    BlankStart(v, faults, probe);
    hide PowerCycled, Sound, Files, Stored, Backed, Laid;
    NothingIsLaid(probe, PowerCycled(v, faults, probe));
  }

  // Looking a time up in recording k answers as the list in memory did when
  // the recording was stopped.
  ghost predicate LooksUp(w: Vol, faults: set<nat>, k: nat, nodes: seq<Node>)
    requires k < |w.nodeList|
  {
    forall t: int :: OnDiskBlock(w.sectors, faults, w.nodeList[k], t) == SearchBlock(nodes, t)
  }

  lemma LooksUpExactly(probe: bool, w: Vol, tails: seq<Tail>, k: nat, nodes: seq<Node>, faults: set<nat>)
    requires Sound(w) && Laid(probe, w, tails) && Remembered(w, tails)
    requires k < |tails| && tails[k].index == Index(nodes) && nodes != [] && nodes[0].block != 0
    ensures LooksUp(w, faults, k, nodes) <==> AllReadable(w.sectors, faults, w.nodeList[k], ExtraReads(|nodes|) + 1)
  {
    assert GapHolds(probe, w.sectors, Files(w)[k], tails[k]) by {
      hide Files, GapHolds;
    }
    GapsInFront(probe, w, tails, k);
    hide Sound, Files, Laid, StoredAt, OnDiskBlock, SearchBlock, ExtraReads;
    SearchesAgree(w.sectors, faults, w.nodeList[k], nodes);
  }

  // Over every run and its restarts the search works for every recording that
  // has its node file, exactly when all blocks the search touches can be read.
  lemma {:induction false} SearchesInEveryRun(probe: bool, v: Vol, tails: seq<Tail>, ops: seq<Op>, k: nat,
                                              nodes: seq<Node>, faults: set<nat>)
    requires Sound(v) && Laid(probe, v, tails) && Remembered(v, tails)
    requires Possible(probe, v, ops) && AllRestorable(probe, v, ops)
    requires k < |RunTails(probe, v, tails, ops)| && RunTails(probe, v, tails, ops)[k].index == Index(nodes)
    requires nodes != [] && nodes[0].block != 0
    ensures var w := Run(probe, v, ops);
      && k < |w.nodeList|
      && (LooksUp(w, faults, k, nodes)
          <==> AllReadable(w.sectors, faults, w.nodeList[k], ExtraReads(|nodes|) + 1))
  {
    hide Sound, Laid, Possible, AllRestorable, Run, RunTails, LooksUp, ExtraReads;
    RunKeepsSound(probe, v, ops);
    RunKeepsLaid(probe, v, tails, ops);
    RunRemembers(probe, v, tails, ops);
    LooksUpExactly(probe, Run(probe, v, ops), RunTails(probe, v, tails, ops), k, nodes, faults);
  }
}
