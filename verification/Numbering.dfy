// The file index, from which sopen makes up the names "File001", "File002"
// and so on, over every run.
module Numbering {
  import opened Bytes
  import opened DirectoryFormat
  import opened Directory
  import opened Volume
  import opened Recovery
  import opened Crash
  import opened Runs
  import opened Backing

  // As many as there are closed recordings.
  predicate Numbered(v: Vol) {
    v.fileIndex == v.fileNumber
  }

  // Every close counts the index up.
  predicate CountsUp(op: Op) {
    match op
    case Stop(increment) => increment
    case StopWithNodes(increment, _, _, _) => increment
    case SClose(increment, _, _, _, _) => increment
    case _ => true
  }

  lemma StepKeepsNumbered(probe: bool, v: Vol, op: Op)
    requires Sound(v) && Enabled(probe, v, op) && CountsUp(op) && Numbered(v)
    requires op.PowerLoss? ==> Backed(v) && Reaches(v, op)
    ensures Numbered(Step(probe, v, op))
  {
    if op.PowerLoss? {
      hide Sound, Enabled, Numbered, Step, Backed, Reaches;
      RestartNumbers(probe, v, op);
    } else {
      EnabledSteps(probe, v, op);
      hide Sound, OpenedTable, UpdatedTable, BlankedTable, StoredCurrent, NodeSectors, TmatsTable, StoredAll, Blocks,
           ClosingBytes, InitTable, Int32;
    }
  }

  lemma RestartNumbers(probe: bool, v: Vol, op: Op)
    requires Sound(v) && Backed(v) && Enabled(probe, v, op) && op.PowerLoss? && Reaches(v, op)
    ensures Numbered(Step(probe, v, op))
  {
    hide Sound, Backed, Enabled, Reaches, Step, Files, Stored, CutSectors, CutList, Cuttable, CutReaches, DiskHolds,
         Plausible, PowerCycled, Restartable;
    PowerLossIsRestart(probe, v, op.cut, op.faults);
    CutHoldsList(v, op.cut);
    ColdNumbers(v, CutSectors(v, op.cut), CutList(v, op.cut), op.faults, probe);
  }

  // sinit counts the same files twice, up to the first empty block and over
  // all blocks.
  lemma ColdNumbers(v: Vol, sectors: seq<Sector>, list: seq<FileEntry>, faults: set<nat>, probe: bool)
    requires DiskHolds(sectors, list)
    ensures Numbered(PowerCycled(v.(sectors := sectors), faults, probe))
  {
    var t := LoadAll(sectors);
    FirstEmptyOfHeld(t, list, 0);
    CountOfHeld(t, list, FirstEmpty(t, 0));
    CountOfHeld(t, list, MAX_STANAG_BLOCKS);
    hide LoadAll, BlockFromImage, Holds, Probe, FirstEmpty, CountTo, RecoveredWriteBlock, NodeReserve, InitTable;
  }

  lemma NumberOfClosed(v: Vol)
    requires Sound(v) && Numbered(v)
    ensures v.fileIndex == |Files(v)| - if v.isOpen then 1 else 0
  {
    hide Files, Holds;
  }

  // Over every run whose closes count up and whose steps reach, the index is
  // the number of closed recordings.
  lemma {:induction false} RunKeepsNumbered(probe: bool, v: Vol, ops: seq<Op>)
    requires Sound(v) && Backed(v) && Possible(probe, v, ops) && AllReach(probe, v, ops) && Numbered(v)
    requires forall i :: 0 <= i < |ops| ==> CountsUp(ops[i])
    ensures Numbered(Run(probe, v, ops))
    ensures Run(probe, v, ops).fileIndex == |Files(Run(probe, v, ops))| - if Run(probe, v, ops).isOpen then 1 else 0
    decreases |ops|
  {
    hide Sound, Enabled, Step, Backed, Reaches, Numbered, CountsUp, Files;
    if ops == [] {
      NumberOfClosed(v);
    } else {
      StepIsSound(probe, v, ops[0]);
      StepKeepsBacked(probe, v, ops[0]);
      StepKeepsNumbered(probe, v, ops[0]);
      RunKeepsNumbered(probe, Step(probe, v, ops[0]), ops[1..]);
    }
  }
}
