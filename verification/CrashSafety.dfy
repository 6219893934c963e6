// Losing power while a recording is open is no worse than Emergency_Close.
module CrashSafety {
  import opened Bytes
  import opened DirectoryFormat
  import opened Directory
  import opened Volume
  import opened VolumeInvariant
  import opened Recovery
  import opened NodeRecovery
  import opened Runs
  import opened Backing

  datatype Datum = Datum(address: nat, sector: Sector)

  // Recorded data arriving behind the directory.
  function WithData(v: Vol, data: seq<Datum>): Vol
    decreases |data|
  {
    if data == [] then v
    else
      var last := data[|data| - 1];
      Captured(WithData(v, data[..|data| - 1]), last.address, last.sector)
  }

  lemma {:induction false} DataKeepsLists(v: Vol, data: seq<Datum>)
    requires Sound(v) && Backed(v) && v.isOpen && forall i :: 0 <= i < |data| ==> data[i].address >= v.writeBlock
    ensures var w := WithData(v, data);
      && Sound(w) && Backed(w) && Files(w) == Files(v) && Stored(w) == Stored(v)
      && w == v.(sectors := w.sectors)
    decreases |data|
  {
    if data != [] {
      hide Sound, Backed, Stored, Files;
      var d := data[|data| - 1];
      DataKeepsLists(v, data[..|data| - 1]);
      OneDatum(WithData(v, data[..|data| - 1]), d.address, d.sector);
    }
  }

  lemma OneDatum(v: Vol, a: nat, sector: Sector)
    requires Sound(v) && Backed(v) && v.isOpen && a >= v.writeBlock
    ensures var w := Captured(v, a, sector); Sound(w) && Backed(w) && Files(w) == Files(v) && Stored(w) == Stored(v)
  {
    assert Enabled(false, v, Capture(a, sector));
    StepKeepsSound(false, v, Capture(a, sector));
    PlainStepKeepsBacked(false, v, Capture(a, sector));
    hide Sound, Backed, Files, Stored, Captured;
  }

  // A loss of power now, and sinit, give the file list and file number that
  // Emergency_Close would give now, and its cursor but for what sinit
  // reserves for a node file; and the list is files.
  ghost predicate CrashIsHarmless(v: Vol, files: seq<FileEntry>, increment: bool, faults: set<nat>, probe: bool) {
    && |v.table| == MAX_STANAG_BLOCKS && v.fileNumber < MAX_NUM_FILES
    && (var m, c := PowerCycled(v, faults, probe), EmergencyClosed(v, increment);
        && Files(m) == Files(c) == files && m.fileNumber == c.fileNumber == |files|
        && m.writeBlock == c.writeBlock + Reserve(v.sectors, files, probe))
  }

  lemma CrashWhileStored(v: Vol, increment: bool, faults: set<nat>, probe: bool)
    requires Sound(v) && Backed(v) && v.isOpen && Stored(v) == Files(v) && Restartable(v.sectors, faults, probe)
    requires DirectoryReadable(v.sectors, faults) && Recoverable(Files(v), probe)
    ensures CrashIsHarmless(v, Files(v), increment, faults, probe)
  {
    OpenCanUpdate(v);
    StopStep(v, increment);
    assert |v.sectors| >= RESERVED_BLOCKS && DiskHolds(v.sectors, Files(v));
    assert v.(sectors := v.sectors) == v;
    assert EmergencyClosed(v, increment).fileNumber == v.fileNumber + 1 by {
      hide BlankedTable, Sound;
    }
    hide PowerCycled, Files, EmergencyClosed, Sound, Backed, StoredOn, Restartable, LoadAll, DiskHolds, Stored,
         Recoverable, Reserve, EndOfFiles, DirectoryReadable;
    RestartKeepsList(v, v.sectors, Files(v), faults, probe);
    FileNumberCounts(PowerCycled(v, faults, probe));
  }

  lemma FileNumberCounts(w: Vol)
    requires Sound(w) && !w.isOpen
    ensures w.fileNumber == |Files(w)|
  {
    hide Holds, Files;
  }

  // An update that reaches makes both lists equal.
  lemma UpdatedIsStored(v: Vol, total: U64, time: Text8)
    requires Sound(v) && Backed(v) && v.isOpen && IsPadded(time) && WriteBackReaches(v)
    ensures CanUpdate(v.(totalBytes := total)) && Files(v) != []
    ensures var u := Updated(v.(totalBytes := total), time, true);
      && Sound(u) && Backed(u) && u.isOpen && u.writeBlock == v.writeBlock
      && Stored(u) == Files(u) == Published(Files(v), total, time) && |Files(u)| == |Files(v)|
  {
    var blank := v.(totalBytes := total);
    var u := Updated(blank, time, true);
    OpenCanUpdate(v);
    hide *;
    UpdateStep(v, total, true, time);
    MadeIsSound(u, Published(Files(v), total, time));
    PublishedShape(Files(v), total, time);
    UpdatedShape(blank, time);
    UpdatedSectors(blank, time);
    StoresAs(v, u, total, time);
    WriteBackKeepsBacked(v, u);
  }

  lemma MadeIsSound(u: Vol, files: seq<FileEntry>)
    requires Makes(u, files)
    ensures Sound(u) && Files(u) == files
  {
  }

  lemma UpdatedShape(v: Vol, time: Text8)
    requires CanUpdate(v)
    ensures var u := Updated(v, time, true);
      u.isOpen == v.isOpen && u.writeBlock == v.writeBlock && u.fileNumber == v.fileNumber
      && |u.table| == MAX_STANAG_BLOCKS
  {
    hide UpdatedTable, StoredCurrent;
  }

  // Right after an update that reached the cartridge, and after any recorded
  // data behind it, losing power is no worse than Emergency_Close.
  lemma {:induction false} CrashAfterUpdate(v: Vol, total: U64, time: Text8, data: seq<Datum>, increment: bool)
    requires Sound(v) && Backed(v) && v.isOpen && IsPadded(time) && WriteBackReaches(v)
    requires |Files(v)| <= MAX_RECOVERABLE_FILES
    requires forall i :: 0 <= i < |data| ==> data[i].address >= v.writeBlock
    ensures CanUpdate(v.(totalBytes := total)) && Files(v) != []
    ensures CrashIsHarmless(WithData(Updated(v.(totalBytes := total), time, true), data),
                            Published(Files(v), total, time), increment, {}, false)
  {
    assert forall list :: Recoverable(list, false);
    hide *;
    UpdatedIsStored(v, total, time);
    var u := Updated(v.(totalBytes := total), time, true);
    DataKeepsLists(u, data);
    var w := WithData(u, data);
    StoredIsRestartable(w);
    CrashWhileStored(w, increment, {}, false);
  }

  lemma StoredIsRestartable(w: Vol)
    requires Sound(w) && Backed(w) && |Stored(w)| <= MAX_RECOVERABLE_FILES
    ensures Restartable(w.sectors, {}, false) && DirectoryReadable(w.sectors, {})
  {
    RestartIsPossible(w, AtRest, {}, false);
    assert |w.sectors| >= RESERVED_BLOCKS && CutSectors(w, AtRest) == w.sectors;
    hide Sound, Backed, Stored, Files, Restartable;
  }
}
