// Updates and erases cut off by a loss of power, in terms of the operations
// before: when a cut leaves exactly the old list, and runs in which it does not.
module Careful {
  import opened Bytes
  import opened DirectoryFormat
  import opened Directory
  import opened Volume
  import opened VolumeInvariant
  import opened Recovery
  import opened NodeRecovery
  import opened Runs
  import opened TornErase
  import opened Backing
  import opened Tally

  /* ---------- torn updates ---------- */

  // The listed files reach up to the block of the open one.
  predicate ListReachesAll(t: Tally) {
    4 * LastBlock(t) <= t.listed - if t.current then 0 else 1
  }

  // An update cut off between its two writes leaves exactly the old list when
  // they do; and another one when they end before that block.
  lemma TornUpdateLeavesOldList(v: Vol, t: Tally, total: U64, time: Text8)
    requires Sound(v) && Backed(v) && Agrees(v, t) && Cuttable(v, InUpdate(total, time))
    ensures Files(v) != [] && LastIn(Files(v), v.fileNumber / 4)
    ensures ListReachesAll(t) ==> CutList(v, InUpdate(total, time)) == Stored(v)
    ensures 4 * LastBlock(t) > t.listed ==> CutList(v, InUpdate(total, time)) != Stored(v)
  {
    hide Sound, Files, Stored, DiskHolds, UpToDate, Published, Mixed, CanUpdate;
    OpenCanUpdate(v);
    LastInBlock(Files(v));
    PublishedShape(Files(v), total, time);
    TornListIsOld(Stored(v), Files(v), Published(Files(v), total, time), t, v.fileNumber / 4);
  }

  lemma TornListIsOld(stored: seq<FileEntry>, files: seq<FileEntry>, published: seq<FileEntry>, t: Tally, b: nat)
    requires Behind(stored, files) && LastIn(files, b) && |published| == |files| == t.files && t.listed == |stored|
    requires forall i :: 0 <= i < |files| - 1 ==> published[i] == files[i]
    requires t.current && t.listed > 0 ==> stored[t.listed - 1] == files[t.listed - 1]
    requires !t.current ==> t.listed > 0
    ensures ListReachesAll(t) ==> Mixed(stored, published, b) == stored
    ensures 4 * LastBlock(t) > t.listed ==> Mixed(stored, published, b) != stored
  {
    hide UpToDate, Mixed;
    BehindNoLonger(stored, files);
    MixedExactly(stored, published, b);
    if ListReachesAll(t) {
      assert 4 * b <= |stored|;
      forall i | 0 <= i < 4 * b ensures stored[i] == published[i] {
        SameBehind(stored, files, t, i);
        assert published[i] == files[i];
      }
      hide Behind;
      UpToDateAtLeast(stored, published, 4 * b);
    }
  }

  lemma SameBehind(stored: seq<FileEntry>, files: seq<FileEntry>, t: Tally, i: nat)
    requires Behind(stored, files) && |stored| == t.listed && i < t.listed - if t.current then 0 else 1
    requires t.current && t.listed > 0 ==> stored[t.listed - 1] == files[t.listed - 1]
    ensures stored[i] == files[i]
  {
  }

  lemma SettledReachesAll(v: Vol, t: Tally)
    requires Agrees(v, t) && Settled(t) && v.isOpen
    ensures ListReachesAll(t)
  {
    hide Files, Stored;
  }

  // The tally after a run.
  function TallyAfter(t: Tally, ops: seq<Op>): Tally
    decreases |ops|
  {
    if ops == [] then t else TallyAfter(Tallied(t, ops[0]), ops[1..])
  }

  lemma {:induction false} CarefulRunAgrees(probe: bool, v: Vol, t: Tally, ops: seq<Op>)
    requires Sound(v) && Backed(v) && Agrees(v, t) && Possible(probe, v, ops) && Settled(t) && AllCareful(t, ops)
    ensures var w := Run(probe, v, ops);
      Sound(w) && Backed(w) && Agrees(w, TallyAfter(t, ops)) && Settled(TallyAfter(t, ops))
    decreases |ops|
  {
    hide Sound, Enabled, Step, Backed, Agrees, TellsReach, Tallied, Reaches, Settled, Careful;
    if ops != [] {
      CarefulStep(probe, v, t, ops[0]);
      AgreementGivesReach(v, t, ops[0], probe);
      StepIsSound(probe, v, ops[0]);
      StepKeepsBacked(probe, v, ops[0]);
      StepKeepsAgreement(probe, v, t, ops[0]);
      CarefulRunAgrees(probe, Step(probe, v, ops[0]), Tallied(t, ops[0]), ops[1..]);
    }
  }

  // At every point of a run in which each recording is published before its
  // stop, an update cut off between its two writes leaves the list that was
  // on the cartridge before, and nothing else.
  lemma {:induction false} CarefulTornUpdate(probe: bool, v: Vol, t: Tally, ops: seq<Op>, total: U64, time: Text8)
    requires Sound(v) && Backed(v) && Agrees(v, t) && Possible(probe, v, ops) && Settled(t) && AllCareful(t, ops)
    requires Cuttable(Run(probe, v, ops), InUpdate(total, time))
    ensures var w := Run(probe, v, ops);
      && StoredOn(CutSectors(w, InUpdate(total, time))) == Stored(w)
      && DiskHolds(CutSectors(w, InUpdate(total, time)), Stored(w))
  {
    var w, tally := Run(probe, v, ops), TallyAfter(t, ops);
    assert w.isOpen;
    hide Sound, Backed, Agrees, Settled, Possible, Run, AllCareful, Files, Stored, CutList, CutSectors, Cuttable,
         ListReachesAll, ListReaches, DiskHolds, StoredOn, WriteBackReaches, CanUpdate;
    CarefulRunAgrees(probe, v, t, ops);
    SettledReachesAll(w, tally);
    TornUpdateLeavesOldList(w, tally, total, time);
    AllReachesReach(w, tally);
    TallyTells(w, tally);
    CutHoldsList(w, InUpdate(total, time));
  }

  lemma AllReachesReach(w: Vol, t: Tally)
    requires ListReachesAll(t)
    ensures ListReaches(t)
  {
  }

  /* ---------- an update whose cut leaves neither list ---------- */

  function FifthOpened(name: Text56, date: Text8, time: Text8): seq<Op> {
    Silent(4, name, date, time) + [Open(name, date, time)]
  }

  // From a blank cartridge: four recordings stopped unpublished, and a fifth
  // whose first update is cut off.  The run goes on with four files: neither
  // none, as the cartridge listed, nor five.
  lemma {:induction false} TornUpdateMixes(v: Vol, name: Text56, date: Text8, time: Text8, total: U64)
    requires Sound(v) && !v.isOpen && v.fileNumber == 0 && IsPadded(name) && IsPadded(date) && IsPadded(time)
    requires forall i :: 1 <= i < RESERVED_BLOCKS && i < |v.sectors| ==> v.sectors[i] == ZERO_SECTOR
    ensures var ops, cut := FifthOpened(name, date, time), PowerLoss(InUpdate(total, time), {});
      && Possible(false, v, ops) && Possible(false, v, ops + [cut])
      && Stored(Run(false, v, ops)) == [] && |Files(Run(false, v, ops))| == 5
      && |Files(Run(false, v, ops + [cut]))| == |Stored(Run(false, v, ops + [cut]))| == 4
  {
    var silent, open, cut := Silent(4, name, date, time), Open(name, date, time), PowerLoss(InUpdate(total, time), {});
    InvSectors(v);
    hide Sound, Enabled, Step, Files, Stored, Backed, Cuttable;
    SilentRun(false, v, 4, name, date, time);
    OpenIdle(false, Run(false, v, silent), 4, v.sectors, name, date, time);
    RunAppend(false, v, silent, [open]);
    var w := Run(false, v, silent + [open]);
    BlankIsBehind(w);
    FifthUpdateCut(w, total, time);
    RunOfOne(false, w, cut);
    RunAppend(false, v, silent + [open], [cut]);
  }

  lemma BlankIsBehind(w: Vol)
    requires Sound(w) && |w.sectors| >= RESERVED_BLOCKS
    requires forall i :: 1 <= i < RESERVED_BLOCKS ==> w.sectors[i] == ZERO_SECTOR
    ensures Backed(w) && Stored(w) == []
  {
    BlankHoldsNothing(w.sectors);
    ListOn(w.sectors, []);
    StoredIsOn(w);
    NothingIsBehindAnything(Files(w));
    hide Sound, Files, Stored, StoredOn, DiskHolds;
  }

  lemma FifthUpdateCut(w: Vol, total: U64, time: Text8)
    requires Sound(w) && Backed(w) && w.isOpen && w.fileNumber == 4 && Stored(w) == [] && IsPadded(time)
    ensures |Files(w)| == 5 && Enabled(false, w, PowerLoss(InUpdate(total, time), {}))
    ensures var x := Step(false, w, PowerLoss(InUpdate(total, time), {})); |Files(x)| == |Stored(x)| == 4
  {
    hide Sound, Files, Stored, Published, Backed, CanUpdate, Cuttable, CutList, CutSectors, WriteBackReaches,
         Restartable, FindsDirectory, Step;
    InvSectors(w);
    var cut := InUpdate(total, time);
    FifthCutList(w, total, time);
    RestartIsPossible(w, cut, {}, false);
    assert DirectoryReadable(CutSectors(w, cut), {});
    PowerLossKeepsBacked(false, w, cut, {});
  }

  lemma FifthCutList(w: Vol, total: U64, time: Text8)
    requires Sound(w) && w.isOpen && w.fileNumber == 4 && Stored(w) == [] && IsPadded(time)
    ensures |Files(w)| == 5 && LastIn(Files(w), 1) && Cuttable(w, InUpdate(total, time)) && WriteBackReaches(w)
    ensures |CutList(w, InUpdate(total, time))| == 4
  {
    OpenCanUpdate(w);
    LastInBlock(Files(w));
    PublishedShape(Files(w), total, time);
    hide Sound, Files, Published, CanUpdate;
    assert Mixed([], Published(Files(w), total, time), 1) == Published(Files(w), total, time)[..4];
  }

  /* ---------- nine files stored ---------- */

  // n recordings, each published before it is stopped.
  function Loud(n: nat, name: Text56, date: Text8, time: Text8): seq<Op> {
    if n == 0 then []
    else Loud(n - 1, name, date, time)
         + [Open(name, date, time)] + [Publish(512, 0, true, true, time)] + [Stop(true)]
  }

  // n files, all of them stored, and none open.
  ghost predicate Kept(v: Vol, n: nat) {
    Sound(v) && Backed(v) && !v.isOpen && v.fileNumber == |Files(v)| == n && Stored(v) == Files(v)
  }

  lemma OpenedKept(probe: bool, v: Vol, n: nat, name: Text56, date: Text8, time: Text8)
    requires Kept(v, n) && n < MAX_FILES && IsPadded(name) && IsPadded(date) && IsPadded(time)
    ensures Enabled(probe, v, Open(name, date, time))
    ensures var w := Step(probe, v, Open(name, date, time));
      Sound(w) && Backed(w) && w.isOpen && |Files(w)| == n + 1 && Stored(w) == Files(w)[..n]
  {
    hide Sound, Backed, Stored, Files, Step, Behind, DiskHolds;
    var open := Open(name, date, time);
    StepKeepsSound(probe, v, open);
    PlainStepKeepsBacked(probe, v, open);
    OpenAfter(probe, v, open);
    assert Files(Step(probe, v, open))[..n] == Files(v);
  }

  lemma PublishedKept(probe: bool, v: Vol, n: nat, time: Text8)
    requires Sound(v) && Backed(v) && v.isOpen && |Files(v)| == n + 1 && Stored(v) == Files(v)[..n] && IsPadded(time)
    ensures Enabled(probe, v, Publish(512, 0, true, true, time))
    ensures var w := Step(probe, v, Publish(512, 0, true, true, time));
      Sound(w) && Backed(w) && w.isOpen && |Files(w)| == n + 1 && Stored(w) == Files(w)
  {
    hide Sound, Backed, Stored, Files, Step, Published, WriteBackReaches, Behind, DiskHolds, NextStored;
    var publish := Publish(512, 0, true, true, time);
    OpenCounts(v, n + 1);
    PrefixReaches(v, Stored(v));
    StepKeepsSound(probe, v, publish);
    StepKeepsBacked(probe, v, publish);
    OpenAfter(probe, v, publish);
    PublishedShape(Files(v), 512, time);
  }

  lemma StoppedKept(probe: bool, v: Vol, n: nat)
    requires Sound(v) && Backed(v) && v.isOpen && |Files(v)| == n + 1 && Stored(v) == Files(v)
    ensures Enabled(probe, v, Stop(true)) && Kept(Step(probe, v, Stop(true)), n + 1)
  {
    hide Sound, Backed, Stored, Files, Step, Behind, DiskHolds;
    StepKeepsSound(probe, v, Stop(true));
    PlainStepKeepsBacked(probe, v, Stop(true));
    OpenAfter(probe, v, Stop(true));
    ClosedCounts(Step(probe, v, Stop(true)), n + 1);
  }

  lemma {:induction false} OneMoreKept(probe: bool, v: Vol, n: nat, name: Text56, date: Text8, time: Text8)
    requires Kept(v, n) && n < MAX_FILES && IsPadded(name) && IsPadded(date) && IsPadded(time)
    ensures Possible(probe, v, [Open(name, date, time)] + [Publish(512, 0, true, true, time)] + [Stop(true)])
    ensures Kept(Run(probe, v, [Open(name, date, time)] + [Publish(512, 0, true, true, time)] + [Stop(true)]), n + 1)
  {
    var open, publish, stop := Open(name, date, time), Publish(512, 0, true, true, time), Stop(true);
    OpenedKept(probe, v, n, name, date, time);
    hide Sound, Backed, Stored, Files, Step, Run, Possible, Enabled;
    var o := Step(probe, v, open);
    PublishedKept(probe, o, n, time);
    var p := Step(probe, o, publish);
    StoppedKept(probe, p, n);
    hide Kept;
    RunOfOne(probe, v, open);
    RunOfOne(probe, o, publish);
    RunOfOne(probe, p, stop);
    RunAppend(probe, v, [open], [publish]);
    RunAppend(probe, v, [open] + [publish], [stop]);
  }

  lemma OpenCounts(v: Vol, n: nat)
    requires Sound(v) && v.isOpen && |Files(v)| == n
    ensures v.fileNumber == n - 1
  {
    hide Holds, Files;
  }

  lemma ClosedCounts(v: Vol, n: nat)
    requires Sound(v) && !v.isOpen && |Files(v)| == n
    ensures v.fileNumber == n
  {
    hide Holds, Files;
  }

  // All files but the open one are stored.
  lemma PrefixReaches(v: Vol, stored: seq<FileEntry>)
    requires Stored(v) == stored && |Files(v)| == v.fileNumber + 1 && |stored| == v.fileNumber
    requires forall k :: 0 <= k < |stored| ==> Files(v)[k] == stored[k]
    ensures WriteBackReaches(v)
  {
    hide Files, Stored, UpToDate;
    UpToDateAtLeast(stored, Files(v), |stored|);
  }

  lemma {:induction false} LoudRun(probe: bool, v: Vol, n: nat, name: Text56, date: Text8, time: Text8)
    requires Kept(v, 0) && n <= MAX_FILES && IsPadded(name) && IsPadded(date) && IsPadded(time)
    ensures Possible(probe, v, Loud(n, name, date, time))
    ensures Kept(Run(probe, v, Loud(n, name, date, time)), n)
  {
    hide Kept, Sound, Enabled, Step;
    if n == 0 {
      assert Loud(0, name, date, time) == [];
    } else {
      var before := Loud(n - 1, name, date, time);
      var more := [Open(name, date, time)] + [Publish(512, 0, true, true, time)] + [Stop(true)];
      LoudRun(probe, v, n - 1, name, date, time);
      OneMoreKept(probe, Run(probe, v, before), n - 1, name, date, time);
      RunAppend(probe, v, before, more);
      assert before + more == Loud(n, name, date, time);
    }
  }

  // From a blank cartridge, nine recordings, and an erase that keeps the first
  // and is cut off after one write: sinit counts six files, a state that no
  // list fits.
  lemma {:induction false} NineRecordingsBecomeSix(v: Vol, name: Text56, date: Text8, time: Text8)
    requires Sound(v) && Backed(v) && !v.isOpen && Files(v) == Stored(v) == []
    requires IsPadded(name) && IsPadded(date) && IsPadded(time)
    ensures var ops := Loud(9, name, date, time);
      && Possible(false, v, ops) && Cuttable(Run(false, v, ops), InErase(1))
      && (var w := Run(false, v, ops);
          var x := PowerCycled(w.(sectors := CutSectors(w, InErase(1))), {}, false);
          x.fileNumber == 6 && forall files :: !Inv(x, files))
  {
    NoFilesNoNumber(v);
    hide Sound, Backed, Stored, Files, Run, Possible, CutSectors, Cuttable, PowerCycled, Inv, DiskHolds;
    LoudRun(false, v, 9, name, date, time);
    var w := Run(false, v, Loud(9, name, date, time));
    assert DiskHolds(w.sectors, Stored(w)) by {
      hide Stored, DiskHolds;
    }
    NineFilesBecomeSix(w, Stored(w));
  }
}
