// When write-backs reach, told from the operations alone: how many files the
// last update that reached the cartridge listed, and how many there are now.
module Tally {
  import opened Bytes
  import opened DirectoryFormat
  import opened Directory
  import opened Volume
  import opened VolumeInvariant
  import opened Recovery
  import opened Crash
  import opened NodeRecovery
  import opened Runs
  import opened Backing

  // files: entries in memory; listed: entries on the cartridge; current: no
  // publication of the last listed file has missed the cartridge since.
  datatype Tally = Tally(open: bool, files: nat, listed: nat, current: bool)

  // Directory block of the last file.
  function LastBlock(t: Tally): int {
    (t.files - 1) / 4
  }

  function ListedAt(t: Tally, cut: Cut): nat {
    match cut
    case AtRest => t.listed
    case InUpdate(_, _) => if t.files > 0 && t.listed < 4 * LastBlock(t) then 4 * LastBlock(t) else t.listed
    case InErase(k) => if k == 0 then t.listed else 1
  }

  function Tallied(t: Tally, op: Op): Tally {
    match op
    case Open(_, _, _) => if t.open then t else t.(open := true, files := t.files + 1)
    case Publish(_, _, present, connected, _) => AfterPublication(t, present, connected)
    case PublishAll(_, present, connected, _) => AfterPublication(t, present, connected)
    case Capture(_, _) => t
    case Stop(_) => t.(open := false)
    case StopWithNodes(_, _, _, _) => t.(open := false)
    case SClose(_, _, _, _, _) => Tally(false, t.files, t.files, true)
    case Erase(ok) => Tally(false, 0, if ok then 0 else t.listed, true)
    case EraseKeepingTmats => Tally(false, 1, 1, true)
    case PowerLoss(cut, _) => Tally(false, ListedAt(t, cut), ListedAt(t, cut), true)
  }

  function AfterPublication(t: Tally, present: bool, connected: bool): Tally {
    if !present then t
    else if connected then t.(listed := t.files, current := true)
    else if t.listed == t.files then t.(current := false)
    else t
  }

  // The listed files reach the block in front of the last two.
  predicate ListReaches(t: Tally) {
    4 * (LastBlock(t) - 1) <= t.listed - if t.current then 0 else 1
  }

  predicate TellsReach(t: Tally, op: Op) {
    && (WritesBack(op) ==> ListReaches(t))
    && (op.Erase? ==> op.ok || t.listed == 0)
    && (op.PowerLoss? ==>
          && (op.cut.InUpdate? ==> ListReaches(t))
          && (op.cut.InErase? ==> op.cut.k == 0 || t.listed <= 4 * op.cut.k)
          && forall a :: 1 <= a < RESERVED_BLOCKS ==> a !in op.faults)
  }

  ghost predicate Agrees(v: Vol, t: Tally) {
    && t.open == v.isOpen && t.files == |Files(v)| && t.listed == |Stored(v)| && t.listed <= t.files
    && (t.current && t.listed > 0 ==> Stored(v)[t.listed - 1] == Files(v)[t.listed - 1])
    && (!t.current ==> t.listed > 0)
  }

  // The tally tells that a write-back reaches; and when it does not say so,
  // and the last listed file is current, the write-back does not reach.
  lemma TallyTells(v: Vol, t: Tally)
    requires Sound(v) && Backed(v) && v.isOpen && Agrees(v, t)
    ensures ListReaches(t) ==> WriteBackReaches(v)
    ensures !ListReaches(t) && (t.current || 4 * (LastBlock(t) - 1) > t.listed) ==> !WriteBackReaches(v)
  {
    OpenCanUpdate(v);
    var stored, files := Stored(v), Files(v);
    assert Behind(stored, files);
    hide Sound, Files, Stored, DiskHolds, UpToDate;
    UpToDateAtLeast(stored, files, t.listed - if t.current then 0 else 1);
  }

  lemma AgreementGivesReach(v: Vol, t: Tally, op: Op, probe: bool)
    requires Sound(v) && Backed(v) && Agrees(v, t) && Enabled(probe, v, op) && TellsReach(t, op)
    ensures Reaches(v, op)
  {
    hide Sound, Files, Stored, Backed, WriteBackReaches, ListReaches, CutSectors, CutList, Restartable, Agrees;
    InvSectors(v);
    if v.isOpen {
      TallyTells(v, t);
    }
    assert WritesBack(op) ==> v.isOpen;
    if op.PowerLoss? {
      LossReaches(v, t, op.cut, op.faults);
    } else if op.Erase? {
      ListedLength(v, t);
    }
  }

  lemma ListedLength(v: Vol, t: Tally)
    requires Agrees(v, t)
    ensures t.listed == |Stored(v)|
  {
    hide Files, Stored;
  }

  lemma LossReaches(v: Vol, t: Tally, cut: Cut, faults: set<nat>)
    requires Agrees(v, t) && Cuttable(v, cut) && |v.sectors| >= RESERVED_BLOCKS
    requires v.isOpen && ListReaches(t) ==> WriteBackReaches(v)
    requires TellsReach(t, PowerLoss(cut, faults))
    ensures Reaches(v, PowerLoss(cut, faults))
  {
    hide Files, Stored, WriteBackReaches, ListReaches;
    ListedLength(v, t);
    assert |CutSectors(v, cut)| == |v.sectors|;
    hide CutSectors, Agrees;
  }

  // One publication that missed the cartridge.
  lemma MissedPublication(v: Vol, t: Tally, w: Vol, total: U64, time: Text8)
    requires Agrees(v, t) && Files(v) != [] && Files(w) == Published(Files(v), total, time) && Stored(w) == Stored(v)
    requires v.isOpen && w.isOpen
    ensures Agrees(w, AfterPublication(t, true, false))
  {
    PublishedShape(Files(v), total, time);
    hide Files, Stored, Published;
  }

  lemma PlainAgreement(probe: bool, v: Vol, t: Tally, op: Op, w: Vol)
    requires Agrees(v, t) && LeavesDirectory(op) && Enabled(probe, v, op)
    requires op.Publish? || op.PublishAll? ==> Files(v) != []
    requires Files(w) == NextFiles(v, op) && Stored(w) == Stored(v) && (w.isOpen <==> op.Open? || StaysOpen(op))
    requires op.Erase? ==> Stored(v) == []
    ensures Agrees(w, Tallied(t, op))
  {
    hide Files, Stored, Published;
    match op
    case Publish(offset, pktLen, present, connected, time) =>
      if present { MissedPublication(v, t, w, (offset + pktLen) % TWO64, time); }
    case PublishAll(blocks, present, connected, time) =>
      if present { MissedPublication(v, t, w, blocks * 512, time); }
    case _ =>
  }

  // Both lists are equal afterwards.
  lemma EqualAgreement(w: Vol, n: nat)
    requires Files(w) == Stored(w) && n == |Files(w)|
    ensures Agrees(w, Tally(w.isOpen, n, n, true))
  {
  }

  lemma CutListLength(v: Vol, t: Tally, cut: Cut)
    requires Agrees(v, t) && Cuttable(v, cut)
    requires cut.InUpdate? ==> Files(v) != [] && LastIn(Files(v), v.fileNumber / 4)
    requires cut.InErase? ==> Files(v) != []
    ensures |CutList(v, cut)| == ListedAt(t, cut)
  {
    hide Files, Stored, Published;
    match cut
    case AtRest =>
    case InErase(k) =>
    case InUpdate(total, time) =>
      PublishedShape(Files(v), total, time);
      assert LastBlock(t) == v.fileNumber / 4;
  }

  lemma StepKeepsAgreement(probe: bool, v: Vol, t: Tally, op: Op)
    requires Sound(v) && Backed(v) && Agrees(v, t) && Enabled(probe, v, op) && Reaches(v, op)
    ensures Agrees(Step(probe, v, op), Tallied(t, op))
  {
    hide *;
    InvSectors(v);
    StepKeepsSound(probe, v, op);
    StepKeepsBacked(probe, v, op);
    OpenAfter(probe, v, op);
    StepShape(probe, v, op);
    var w := Step(probe, v, op);
    MadeFiles(w, NextFiles(v, op));
    if LeavesDirectory(op) {
      PlainAgreement(probe, v, t, op, w);
    } else {
      EqualLists(v, t, op, w);
    }
  }

  lemma StepShape(probe: bool, v: Vol, op: Op)
    requires Enabled(probe, v, op) && Reaches(v, op)
    ensures op.PowerLoss? ==> Cuttable(v, op.cut)
    ensures WritesBack(op) ==> v.isOpen
    ensures WritesBack(op) || op.EraseKeepingTmats? || op.PowerLoss? ==> !LeavesDirectory(op)
    ensures LeavesDirectory(op) && op.Erase? ==> Stored(v) == []
    ensures LeavesDirectory(op) ==> NextStored(v, op) == Stored(v)
  {
    hide Stored, Files, Step, Cuttable, CutList, Published;
  }

  lemma MadeFiles(w: Vol, files: seq<FileEntry>)
    requires Makes(w, files)
    ensures Files(w) == files
  {
  }

  lemma EqualLists(v: Vol, t: Tally, op: Op, w: Vol)
    requires Agrees(v, t) && !LeavesDirectory(op) && (op.PowerLoss? ==> Cuttable(v, op.cut))
    requires WritesBack(op) || op.EraseKeepingTmats? ==> Files(v) != []
    requires op.PowerLoss? && op.cut.InUpdate? ==> Files(v) != [] && LastIn(Files(v), v.fileNumber / 4)
    requires op.PowerLoss? && op.cut.InErase? ==> Files(v) != []
    requires Files(w) == Stored(w) == NextStored(v, op) && (w.isOpen <==> op.Open? || StaysOpen(op))
    requires WritesBack(op) ==> v.isOpen
    ensures Agrees(w, Tallied(t, op))
  {
    hide Stored, Files, Cuttable, CutList, Published;
    if op.PowerLoss? {
      CutListLength(v, t, op.cut);
    } else if WritesBack(op) {
      match op
      case Publish(offset, pktLen, _, _, time) => PublishedShape(Files(v), (offset + pktLen) % TWO64, time);
      case PublishAll(blocks, _, _, time) => PublishedShape(Files(v), blocks * 512, time);
      case SClose(_, fill, btmFill, blocksRecorded, time) =>
        PublishedShape(Files(v), ClosingBytes(v.totalBytes, fill, btmFill, blocksRecorded), time);
    }
    EqualAgreement(w, |Files(w)|);
  }

  /* ---------- every run ---------- */

  // The tally tells of every step that it reaches.
  predicate AllTold(t: Tally, ops: seq<Op>)
    decreases |ops|
  {
    ops == [] || (TellsReach(t, ops[0]) && AllTold(Tallied(t, ops[0]), ops[1..]))
  }

  // A caller can tell from the operations that a run keeps the cartridge's
  // list.
  lemma {:induction false} ToldRunReaches(probe: bool, v: Vol, t: Tally, ops: seq<Op>)
    requires Sound(v) && Backed(v) && Agrees(v, t) && Possible(probe, v, ops) && AllTold(t, ops)
    ensures AllReach(probe, v, ops)
    decreases |ops|
  {
    hide Sound, Enabled, Step, Backed, Agrees, TellsReach, Tallied, Reaches;
    if ops != [] {
      AgreementGivesReach(v, t, ops[0], probe);
      StepIsSound(probe, v, ops[0]);
      StepKeepsBacked(probe, v, ops[0]);
      StepKeepsAgreement(probe, v, t, ops[0]);
      ToldRunReaches(probe, Step(probe, v, ops[0]), Tallied(t, ops[0]), ops[1..]);
    }
  }

  // Every closed recording is on the cartridge as it is in memory.
  predicate Settled(t: Tally) {
    if t.open then t.files - 1 <= t.listed <= t.files && t.files > 0 && (t.listed < t.files ==> t.current)
    else t.listed == t.files && t.current
  }

  // A recording is stopped only when its last publication has reached the
  // cartridge; an erase is carried out, and cut off, if at all, behind the old
  // list's last block; power comes back with a readable directory.
  predicate Careful(t: Tally, op: Op) {
    && (op.Stop? || op.StopWithNodes? ==> t.listed == t.files && t.current)
    && (op.Erase? ==> op.ok)
    && (op.PowerLoss? ==>
          && (op.cut.InErase? ==> op.cut.k == 0 || t.listed <= 4 * op.cut.k)
          && forall a :: 1 <= a < RESERVED_BLOCKS ==> a !in op.faults)
  }

  predicate AllCareful(t: Tally, ops: seq<Op>)
    decreases |ops|
  {
    ops == [] || (Careful(t, ops[0]) && AllCareful(Tallied(t, ops[0]), ops[1..]))
  }

  lemma CarefulStep(probe: bool, v: Vol, t: Tally, op: Op)
    requires Sound(v) && Agrees(v, t) && Enabled(probe, v, op) && Settled(t) && Careful(t, op)
    ensures TellsReach(t, op) && Settled(Tallied(t, op))
  {
    hide Sound, Files, Stored, Restartable, CanUpdate, IsPadded, Blocks, ClosingBytes;
  }

  // When every recording was published before its stop, every write-back of
  // the run reaches, and the cartridge always holds the list.
  lemma {:induction false} PublishedBeforeStops(probe: bool, v: Vol, t: Tally, ops: seq<Op>)
    requires Sound(v) && Backed(v) && Agrees(v, t) && Possible(probe, v, ops) && Settled(t) && AllCareful(t, ops)
    ensures AllReach(probe, v, ops)
    decreases |ops|
  {
    hide Sound, Enabled, Step, Backed, Agrees, TellsReach, Tallied, Reaches, Settled, Careful;
    if ops != [] {
      CarefulStep(probe, v, t, ops[0]);
      AgreementGivesReach(v, t, ops[0], probe);
      StepIsSound(probe, v, ops[0]);
      StepKeepsBacked(probe, v, ops[0]);
      StepKeepsAgreement(probe, v, t, ops[0]);
      PublishedBeforeStops(probe, Step(probe, v, ops[0]), Tallied(t, ops[0]), ops[1..]);
    }
  }

  /* ---------- a run whose write-back does not reach ---------- */

  lemma {:induction false} RunAppend(probe: bool, v: Vol, first: seq<Op>, more: seq<Op>)
    requires Possible(probe, v, first) && Possible(probe, Run(probe, v, first), more)
    ensures Possible(probe, v, first + more) && Run(probe, v, first + more) == Run(probe, Run(probe, v, first), more)
    decreases |first|
  {
    hide Sound, Enabled, Step;
    if first == [] {
      assert first + more == more;
    } else {
      RunAppend(probe, Step(probe, v, first[0]), first[1..], more);
      assert (first + more)[1..] == first[1..] + more && (first + more)[0] == first[0];
    }
  }

  lemma {:induction false} RunOfOne(probe: bool, v: Vol, op: Op)
    requires Sound(v) && Enabled(probe, v, op)
    ensures Possible(probe, v, [op]) && Run(probe, v, [op]) == Step(probe, v, op)
  {
    hide Sound, Enabled, Step;
    var w := Step(probe, v, op);
    assert [op][1..] == [];
    assert Possible(probe, w, []) && Run(probe, w, []) == w;
  }

  // n recordings that are stopped before anything was published.
  function Silent(n: nat, name: Text56, date: Text8, time: Text8): seq<Op> {
    if n == 0 then [] else Silent(n - 1, name, date, time) + [Open(name, date, time)] + [Stop(true)]
  }

  ghost predicate Idle(v: Vol, files: nat, sectors: seq<Sector>) {
    Sound(v) && !v.isOpen && v.fileNumber == files && v.sectors == sectors
  }

  lemma {:induction false} OpenIdle(probe: bool, v: Vol, files: nat, sectors: seq<Sector>,
                                    name: Text56, date: Text8, time: Text8)
    requires Idle(v, files, sectors) && files < MAX_FILES && IsPadded(name) && IsPadded(date) && IsPadded(time)
    ensures Possible(probe, v, [Open(name, date, time)])
    ensures var w := Run(probe, v, [Open(name, date, time)]);
      Sound(w) && w.isOpen && w.fileNumber == files && w.sectors == sectors
  {
    var op := Open(name, date, time);
    RunOfOne(probe, v, op);
    StepIsSound(probe, v, op);
    OpenAfter(probe, v, op);
    EnabledSteps(probe, v, op);
    hide Sound, Files, OpenedTable, Run, Possible;
  }

  lemma {:induction false} StopIdle(probe: bool, v: Vol)
    requires Sound(v) && v.isOpen
    ensures Possible(probe, v, [Stop(true)]) && Idle(Run(probe, v, [Stop(true)]), v.fileNumber + 1, v.sectors)
  {
    RunOfOne(probe, v, Stop(true));
    StepIsSound(probe, v, Stop(true));
    OpenAfter(probe, v, Stop(true));
    EnabledSteps(probe, v, Stop(true));
    hide Sound, Files, BlankedTable, Run, Possible;
  }

  lemma {:induction false} SilentRun(probe: bool, v: Vol, n: nat, name: Text56, date: Text8, time: Text8)
    requires Idle(v, 0, v.sectors) && n <= MAX_FILES && IsPadded(name) && IsPadded(date) && IsPadded(time)
    ensures Possible(probe, v, Silent(n, name, date, time))
    ensures Idle(Run(probe, v, Silent(n, name, date, time)), n, v.sectors)
  {
    hide Idle, Sound, Enabled, Step;
    if n == 0 {
      assert Silent(0, name, date, time) == [];
    } else {
      var before := Silent(n - 1, name, date, time);
      SilentRun(probe, v, n - 1, name, date, time);
      OpenIdle(probe, Run(probe, v, before), n - 1, v.sectors, name, date, time);
      RunAppend(probe, v, before, [Open(name, date, time)]);
      StopIdle(probe, Run(probe, v, before + [Open(name, date, time)]));
      RunAppend(probe, v, before + [Open(name, date, time)], [Stop(true)]);
    }
  }

  // From a blank cartridge: eight recordings stopped unpublished, and a ninth
  // that publishes.
  function NineRecordings(name: Text56, date: Text8, time: Text8): seq<Op> {
    Silent(8, name, date, time) + [Open(name, date, time)] + [Publish(512, 0, true, true, time)]
  }

  // That publication does not reach: what is on the cartridge afterwards is no
  // list at all, and the restart that the run allows then finds none of the
  // nine recordings.
  lemma {:induction false} NineRecordingsAreLost(probe: bool, v: Vol, name: Text56, date: Text8, time: Text8)
    requires Sound(v) && !v.isOpen && v.fileNumber == 0 && IsPadded(name) && IsPadded(date) && IsPadded(time)
    requires forall i :: 1 <= i < RESERVED_BLOCKS && i < |v.sectors| ==> v.sectors[i] == ZERO_SECTOR
    ensures var ops := NineRecordings(name, date, time);
      && Possible(probe, v, ops) && !Backed(Run(probe, v, ops)) && |Files(Run(probe, v, ops))| == 9
      && Possible(probe, v, ops + [PowerLoss(AtRest, {})])
      && Files(Run(probe, v, ops + [PowerLoss(AtRest, {})])) == []
  {
    var silent, open := Silent(8, name, date, time), Open(name, date, time);
    var publish := Publish(512, 0, true, true, time);
    assert |v.sectors| >= RESERVED_BLOCKS;
    hide Sound, Enabled, Step, Files, Stored, Backed, PowerCycled;
    SilentRun(probe, v, 8, name, date, time);
    OpenIdle(probe, Run(probe, v, silent), 8, v.sectors, name, date, time);
    RunAppend(probe, v, silent, [open]);
    var w := Run(probe, v, silent + [open]);
    assert Enabled(probe, w, publish) by {
      hide Sound, Run;
    }
    RunOfOne(probe, w, publish);
    RunAppend(probe, v, silent + [open], [publish]);
    NinthPublicationFails(probe, w, publish);
    StepIsSound(probe, w, publish);
    BlockOneMissing(probe, Step(probe, w, publish));
    RunAppend(probe, v, NineRecordings(name, date, time), [PowerLoss(AtRest, {})]);
  }

  lemma NinthPublicationFails(probe: bool, w: Vol, op: Op)
    requires Sound(w) && w.isOpen && w.fileNumber == 8 && Enabled(probe, w, op) && WritesBack(op)
    requires |w.sectors| >= RESERVED_BLOCKS
    requires forall i :: 1 <= i < RESERVED_BLOCKS ==> w.sectors[i] == ZERO_SECTOR
    ensures var x := Step(probe, w, op);
      !Backed(x) && |Files(x)| == 9 && |x.sectors| == |w.sectors| && x.sectors[1] == ZERO_SECTOR
  {
    BlankHoldsNothing(w.sectors);
    ListOn(w.sectors, []);
    StoredIsOn(w);
    NothingIsBehindAnything(Files(w));
    OpenCanUpdate(w);
    WriteBackStep(probe, w, op);
    hide Sound, Enabled, Step, Files, Stored, StoredOn, DiskHolds, WritesBack;
    assert Backed(w);
    assert !WriteBackReaches(w) by {
      hide Backed;
    }
    UpdateReachesExactly(probe, w, op);
  }

  lemma NothingIsBehindAnything(files: seq<FileEntry>)
    ensures Behind([], files)
  {
  }

  lemma {:induction false} BlockOneMissing(probe: bool, x: Vol)
    requires Sound(x) && |x.sectors| >= RESERVED_BLOCKS && x.sectors[1] == ZERO_SECTOR
    ensures Possible(probe, x, [PowerLoss(AtRest, {})])
    ensures Files(Run(probe, x, [PowerLoss(AtRest, {})])) == []
  {
    hide Sound, Step, Files, Possible, Run, Enabled;
    RestartsEmpty(probe, x);
    RunOfOne(probe, x, PowerLoss(AtRest, {}));
    StepKeepsSound(probe, x, PowerLoss(AtRest, {}));
  }

  lemma RestartsEmpty(probe: bool, x: Vol)
    requires Sound(x) && |x.sectors| >= RESERVED_BLOCKS && x.sectors[1] == ZERO_SECTOR
    ensures Enabled(probe, x, PowerLoss(AtRest, {})) && NextFiles(x, PowerLoss(AtRest, {})) == []
  {
    hide Sound, StartsSound, StartList, Files;
    StartsEmpty(x.sectors, probe);
  }

  lemma StartsEmpty(sectors: seq<Sector>, probe: bool)
    requires |sectors| >= RESERVED_BLOCKS && sectors[1] == ZERO_SECTOR
    ensures StartsSound(sectors, {}, probe) && StartList(sectors, {}) == []
  {
    ZeroSectorIsEmpty();
    hide BlockFromImage, Scanned, LoadAll, Holds, Plausible, StoredFiles;
    assert !HasMagic(sectors);
  }
}
