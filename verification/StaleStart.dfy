// What sinit makes of a cartridge on which a write-back did not reach: blocks
// before the two written ones are older than the list.
module StaleStart {
  import opened DirectoryFormat
  import opened Directory
  import opened Volume
  import opened VolumeInvariant
  import opened Recovery
  import opened NodeRecovery
  import opened Runs
  import opened Backing

  // The files sinit counts when the cartridge listed stored of the files
  // before, and blocks b - 1 and b were written: the old ones, when an empty
  // block comes before the new ones; all entries there are, when only a gap
  // within a block does; and all files otherwise.
  function StaleCount(stored: nat, files: nat, b: nat): int {
    if stored <= 4 * (b - 2) then stored
    else if stored < 4 * (b - 1) then stored + files - 4 * (b - 1)
    else files
  }

  // Blocks b - 1 and b show files, the others stored.
  ghost predicate Stale(t: seq<DirBlock>, stored: seq<FileEntry>, files: seq<FileEntry>, b: nat) {
    && |t| == MAX_STANAG_BLOCKS && LastIn(files, b) && |stored| <= |files| && b >= 2
    && forall j :: 0 <= j < MAX_STANAG_BLOCKS ==> Shows(t[j], if b - 1 <= j <= b then files else stored, j)
  }

  lemma StaleLive(t: seq<DirBlock>, stored: seq<FileEntry>, files: seq<FileEntry>, b: nat, j: nat)
    requires Stale(t, stored, files, b) && j < MAX_STANAG_BLOCKS
    ensures t[j].numberOfFileEntries == Live(if b - 1 <= j <= b then |files| else |stored|, j)
  {
    assert Shows(t[j], if b - 1 <= j <= b then files else stored, j);
  }

  lemma {:induction false} CountOfOld(t: seq<DirBlock>, stored: seq<FileEntry>, files: seq<FileEntry>, b: nat, j: nat)
    requires Stale(t, stored, files, b) && j <= b - 1
    ensures CountTo(t, j) == if 4 * j <= |stored| then 4 * j else |stored|
  {
    assert LastIn(files, b);
    hide Stale;
    if j > 0 {
      CountOfOld(t, stored, files, b, j - 1);
      StaleLive(t, stored, files, b, j - 1);
    }
  }

  lemma {:induction false} CountOfAll(t: seq<DirBlock>, stored: seq<FileEntry>, files: seq<FileEntry>, b: nat)
    requires Stale(t, stored, files, b)
    ensures CountTo(t, b + 1) == CountTo(t, b - 1) + |files| - 4 * (b - 1)
  {
    StaleLive(t, stored, files, b, b - 1);
    StaleLive(t, stored, files, b, b);
    assert LastIn(files, b);
    hide Stale;
    assert CountTo(t, b + 1) == CountTo(t, b) + t[b].numberOfFileEntries;
    assert CountTo(t, b) == CountTo(t, b - 1) + t[b - 1].numberOfFileEntries;
  }

  // The first empty block is the only one with full or partly filled blocks
  // before it.
  lemma {:induction false} FirstEmptyIs(t: seq<DirBlock>, e: nat)
    requires e <= |t| && (forall j :: 0 <= j < e ==> t[j].numberOfFileEntries != 0)
    requires e < |t| ==> t[e].numberOfFileEntries == 0
    ensures FirstEmpty(t, 0) == e
  {
  }

  lemma {:induction false} StaleCounts(t: seq<DirBlock>, stored: seq<FileEntry>, files: seq<FileEntry>, b: nat)
    requires Stale(t, stored, files, b)
    ensures CountTo(t, FirstEmpty(t, 0)) == StaleCount(|stored|, |files|, b)
  {
    assert LastIn(files, b) && |stored| <= |files|;
    var e := if |stored| <= 4 * (b - 2) then (|stored| + 3) / 4 else b + 1;
    hide Stale, CountTo;
    forall j | 0 <= j < e ensures t[j].numberOfFileEntries != 0 {
      StaleLive(t, stored, files, b, j);
    }
    if e < MAX_STANAG_BLOCKS {
      StaleLive(t, stored, files, b, e);
    }
    FirstEmptyIs(t, e);
    if |stored| <= 4 * (b - 2) {
      CountOfOld(t, stored, files, b, e);
    } else {
      CountOfOld(t, stored, files, b, b - 1);
      CountOfAll(t, stored, files, b);
    }
  }

  // When the old list ends with block b - 2, the table stands for a list all
  // the same: the old entries, and the new ones behind them.
  lemma StaleList(t: seq<DirBlock>, stored: seq<FileEntry>, files: seq<FileEntry>, b: nat)
    requires Stale(t, stored, files, b) && |stored| == 4 * (b - 1)
    ensures |stored| <= |files| && Holds(t, stored + files[|stored|..])
  {
    var mixed := stored + files[|stored|..];
    forall j | 0 <= j < MAX_STANAG_BLOCKS ensures Shows(t[j], mixed, j) {
      assert Shows(t[j], if b - 1 <= j <= b then files else stored, j);
      StaleBlockShows(t[j], stored, files, b, j);
    }
    HoldsBlockwise(t, mixed);
  }

  lemma StaleBlockShows(block: DirBlock, stored: seq<FileEntry>, files: seq<FileEntry>, b: nat, j: nat)
    requires LastIn(files, b) && b >= 2 && |stored| == 4 * (b - 1) <= |files|
    requires Shows(block, if b - 1 <= j <= b then files else stored, j)
    ensures Shows(block, stored + files[|stored|..], j)
  {
    var mixed := stored + files[|stored|..];
    forall i | 0 <= i < Live(|mixed|, j) ensures block.fileEntries[i] == mixed[4 * j + i] {
    }
  }

  // The cartridge after an update that does not reach.
  lemma StaleAfterWriteBack(probe: bool, v: Vol, op: Op)
    requires Sound(v) && Backed(v) && Enabled(probe, v, op) && WritesBack(op) && !WriteBackReaches(v)
    ensures var x, b := Step(probe, v, op), v.fileNumber / 4;
      && |x.sectors| >= RESERVED_BLOCKS && |Files(x)| == |Files(v)| && |Stored(v)| <= 4 * (b - 1)
      && Stale(LoadAll(x.sectors), Stored(v), Files(x), b)
      && (Stored(v) != [] ==> HasMagic(x.sectors))
      && (Stored(v) == [] ==> !HasMagic(x.sectors) || LoadAll(x.sectors)[0].numberOfFileEntries == 0)
  {
    var x, b := Step(probe, v, op), v.fileNumber / 4;
    hide Sound, Files, Stored, Enabled, Step, UpToDate, Writable, StoredCurrent, LoadAll, BlockFromImage, Stale,
         StoresTwoBlocks, DiskHolds, WritesBack;
    WriteBackStep(probe, v, op);
    StoresShape(v, x);
    SoundIsWritable(x);
    LastInBlock(Files(x));
    InvSectors(v);
    AlmostUpToDate(Stored(v), Files(v));
    StaleOnCartridge(v.sectors, x.table, Files(x), Stored(v), b);
  }

  lemma StaleOnCartridge(sectors: seq<Sector>, table: seq<DirBlock>, files: seq<FileEntry>, stored: seq<FileEntry>,
                         b: nat)
    requires Writable(table, files) && LastIn(files, b) && DiskHolds(sectors, stored) && b >= 2
    requires |stored| <= |files| && |sectors| >= RESERVED_BLOCKS && |table| == MAX_STANAG_BLOCKS
    ensures var s := StoredCurrent(sectors, table, b);
      && Stale(LoadAll(s), stored, files, b)
      && (stored != [] ==> HasMagic(s)) && (stored == [] ==> LoadAll(s)[0].numberOfFileEntries == 0)
  {
    hide StoredCurrent, LoadAll, BlockFromImage, Shows, Holds, DiskHolds;
    BlocksAfterStore(sectors, table, files, stored, b);
    WritableHasMagic(table, files);
    if stored != [] {
      MagicSurvives(sectors, table, b, stored);
    } else {
      StaleLive(LoadAll(StoredCurrent(sectors, table, b)), stored, files, b, 0);
    }
  }

  lemma StoresShape(v: Vol, x: Vol)
    requires StoresTwoBlocks(v, x)
    ensures Sound(x) && |Files(x)| == |Files(v)| > 0 && |x.table| == MAX_STANAG_BLOCKS && v.fileNumber < MAX_FILES
    ensures v.fileNumber == |Files(v)| - 1 && x.sectors == StoredCurrent(v.sectors, x.table, v.fileNumber / 4)
  {
    hide Sound, Files, StoredCurrent;
  }

  lemma WritableHasMagic(table: seq<DirBlock>, files: seq<FileEntry>)
    requires Writable(table, files)
    ensures |table| == MAX_STANAG_BLOCKS && table[0].magicNumber == MAGIC
  {
  }

  lemma AlmostUpToDate(stored: seq<FileEntry>, files: seq<FileEntry>)
    requires Behind(stored, files)
    ensures |stored| <= |files| && |stored| - 1 <= UpToDate(stored, files)
  {
    hide UpToDate;
    UpToDateAtLeast(stored, files, |stored| - 1);
  }

  // An update that does not reach leaves the next start with this many files;
  // and with a list only if the old one ended with the block before those
  // written, its last entry then possibly outdated.
  lemma StaleStartCounts(probe: bool, v: Vol, op: Op)
    requires Sound(v) && Backed(v) && Enabled(probe, v, op) && WritesBack(op) && !WriteBackReaches(v)
    ensures var x, b := Step(probe, v, op), v.fileNumber / 4;
      && PowerCycled(x, {}, false).fileNumber == StaleCount(|Stored(v)|, |Files(v)|, b)
      && |Stored(v)| <= |Files(x)|
      && (|Stored(v)| == 4 * (b - 1) ==> DiskHolds(x.sectors, Stored(v) + Files(x)[|Stored(v)|..]))
  {
    var x, b := Step(probe, v, op), v.fileNumber / 4;
    hide Sound, Files, Stored, Enabled, Step, WriteBackReaches, LoadAll, BlockFromImage, Shows, Holds, PowerCycled,
         Backed, FirstEmpty, CountTo;
    StaleAfterWriteBack(probe, v, op);
    StaleCounts(LoadAll(x.sectors), Stored(v), Files(x), b);
    StartCount(x);
    if |Stored(v)| == 4 * (b - 1) {
      StaleList(LoadAll(x.sectors), Stored(v), Files(x), b);
    }
  }

  // What sinit counts without the probe.
  lemma StartCount(x: Vol)
    requires |x.sectors| >= RESERVED_BLOCKS
    ensures PowerCycled(x, {}, false).fileNumber
         == if HasMagic(x.sectors) then CountTo(LoadAll(x.sectors), FirstEmpty(LoadAll(x.sectors), 0)) else 0
  {
    hide LoadAll, BlockFromImage, InitTable, FirstEmpty, CountTo, RecoveredWriteBlock;
  }
}
