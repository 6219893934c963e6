// The space counted as used, over every run: what is recorded is counted, and
// a stop moves the count of the open recording into the write cursor.
module Space {
  import opened Bytes
  import opened DirectoryFormat
  import opened Directory
  import opened Volume
  import opened VolumeInvariant
  import opened Runs

  // A publication of at least one byte.
  predicate CarriesBytes(op: Op) {
    op.Publish? && op.present ==> (op.offset + op.pktLen) % TWO64 != 0
  }

  predicate AllCarryBytes(ops: seq<Op>) {
    forall i :: 0 <= i < |ops| ==> CarriesBytes(ops[i])
  }

  lemma OpenedIsCounted(v: Vol, name: Text56, date: Text8, time: Text8)
    requires Sound(v) && Counted(v) && (v.isOpen || CanOpen(v))
    ensures Counted(Opened(v, name, date, time))
  {
    hide OpenedTable, Sound;
  }

  lemma StepKeepsCounted(probe: bool, v: Vol, op: Op)
    requires Sound(v) && Counted(v) && Enabled(probe, v, op) && CarriesBytes(op)
    ensures Counted(Step(probe, v, op))
  {
    EnabledSteps(probe, v, op);
    OpenAfter(probe, v, op);
    hide OpenedTable, UpdatedTable, StoredCurrent, Files, Sound;
    match op
    case Open(name, date, time) => OpenedIsCounted(v, name, date, time);
    case Publish(offset, pktLen, present, connected, time) =>
    case PublishAll(blocks, present, connected, time) => WholeBlocks(blocks);
    case Capture(_, _) =>
    case _ => hide Step;
  }

  // What a run of operations has published of the open recording is counted
  // block by block: the running count, the block count of its entry, and the
  // blocks its bytes take are the same, and what sdisk reports as used ends
  // where the recording does - or at the cursor - and stays so at its close.
  ghost predicate CountsItsBytes(v: Vol) {
    if !v.isOpen then UsedBlocks(v) == v.writeBlock % 0x1_0000_0000
    else
      && Files(v) != [] && |v.table| == MAX_STANAG_BLOCKS && v.fileNumber < MAX_NUM_FILES
      && (var e := Files(v)[|Files(v)| - 1];
          && e.size == v.totalBytes
          && BLOCK_SIZE * v.blocksWritten - BLOCK_SIZE < e.size <= BLOCK_SIZE * v.blocksWritten
          && e.blockCount == v.blocksWritten
          && UsedBlocks(v) == (e.startAddress + e.blockCount) % 0x1_0000_0000)
      && forall increment :: UsedBlocks(EmergencyClosed(v, increment)) == UsedBlocks(v)
  }

  lemma CountedCountsItsBytes(v: Vol)
    requires Sound(v) && Counted(v)
    ensures CountsItsBytes(v)
  {
    if v.isOpen {
      OpenCanUpdate(v);
      var e := Files(v)[|Files(v)| - 1];
      assert e.size == v.totalBytes && e.blockCount == Blocks(v.totalBytes) && e.startAddress == v.writeBlock by {
        hide Holds, PaddedEntry, Placed, Ordered, Files, Blocks;
      }
      forall increment ensures UsedBlocks(EmergencyClosed(v, increment)) == UsedBlocks(v) {
        EmergencyCloseConservesSpace(v, Files(v), increment);
        assert EmergencyClosed(v, increment).blocksWritten == 0 by {
          hide Sound, Files, BlankedTable, Blocks;
        }
      }
    } else {
      assert v.blocksWritten == 0 by {
        hide Holds, PaddedEntry, Placed, Ordered, Files;
      }
    }
  }

  // Over every run whose publications carry bytes, in both configurations.
  lemma {:induction false} RunCountsItsBytes(probe: bool, v: Vol, ops: seq<Op>)
    requires Sound(v) && Counted(v) && Possible(probe, v, ops) && AllCarryBytes(ops)
    ensures Counted(Run(probe, v, ops)) && CountsItsBytes(Run(probe, v, ops))
    decreases |ops|
  {
    hide Sound, Enabled, Step, Counted, CarriesBytes, CountsItsBytes;
    if ops == [] {
      CountedCountsItsBytes(v);
    } else {
      assert CarriesBytes(ops[0]);
      StepIsSound(probe, v, ops[0]);
      StepKeepsCounted(probe, v, ops[0]);
      RunCountsItsBytes(probe, Step(probe, v, ops[0]), ops[1..]);
    }
  }

  // A publication of no bytes after one of some leaves the old count running:
  // only then does a stop change the figure reported as used.
  lemma EmptyPublicationMiscounts(probe: bool, v: Vol, op: Op)
    requires Sound(v) && v.isOpen && Counted(v) && Enabled(probe, v, op) && op.Publish?
    ensures Counted(Step(probe, v, op)) <==> CarriesBytes(op) || v.blocksWritten == 0
  {
    EnabledSteps(probe, v, op);
    hide UpdatedTable, StoredCurrent, Files, Sound;
  }
}
