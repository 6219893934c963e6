// The erase that keeps the TMATS file stores the emptied directory block by
// block.  What the cartridge holds when power is lost after some of the 128
// writes, and what sinit makes of it.
module TornErase {
  import opened DirectoryFormat
  import opened Directory
  import opened DiskIo
  import opened Volume
  import opened VolumeInvariant
  import opened Recovery
  import opened Crash
  import opened NodeRecovery
  import opened Runs

  lemma {:induction false} StoredAllAt(sectors: seq<Sector>, table: seq<DirBlock>, k: nat, i: nat)
    requires k <= |table| && i < |sectors|
    ensures StoredAll(sectors, table, k)[i] == if 1 <= i <= k then StoreBlock(table[i - 1]) else sectors[i]
  {
    hide StoreBlock;
    if k > 0 {
      StoredAllAt(sectors, table, k - 1, i);
    }
  }

  lemma {:induction false} LoadsAfterErase(sectors: seq<Sector>, table: seq<DirBlock>, k: nat)
    requires |sectors| >= RESERVED_BLOCKS && |table| == MAX_STANAG_BLOCKS && k <= MAX_STANAG_BLOCKS
    ensures forall j :: 0 <= j < MAX_STANAG_BLOCKS ==>
      LoadAll(StoredAll(sectors, table, k))[j] == if j < k then LoadBlock(StoreBlock(table[j])) else LoadAll(sectors)[j]
    ensures StoredAll(sectors, table, k)[1] == if k > 0 then StoreBlock(table[0]) else sectors[1]
  {
    hide StoreBlock, LoadBlock;
    StoredAllAt(sectors, table, k, 1);
    forall j | 0 <= j < MAX_STANAG_BLOCKS
      ensures LoadAll(StoredAll(sectors, table, k))[j]
           == if j < k then LoadBlock(StoreBlock(table[j])) else LoadAll(sectors)[j]
    {
      StoredAllAt(sectors, table, k, SYSTEM_RESERVE_BLOCKS + j);
    }
  }

  function KeptFile(files: seq<FileEntry>): seq<FileEntry>
    requires files != []
  {
    [files[0].(startAddress := RESERVED_BLOCKS)]
  }

  // The directory the erase stores, and the file in it.
  lemma KeptIsWritable(v: Vol)
    requires Sound(v) && !v.isOpen && v.fileNumber > 0
    ensures Files(v) != [] && |v.table| == MAX_STANAG_BLOCKS && |v.sectors| >= RESERVED_BLOCKS
    ensures Writable(TmatsTable(v.table), KeptFile(Files(v))) && Plausible(KeptFile(Files(v)))
  {
    TmatsEraseKeepsInv(v, Files(v));
    hide TmatsTable, StoredAll, Holds, PaddedEntry;
    assert TmatsErased(v).table == TmatsTable(v.table);
  }

  // After k of the writes the first k blocks are those of the new directory,
  // the others still the old ones.
  lemma TornBlocks(v: Vol, stored: seq<FileEntry>, k: nat)
    requires Sound(v) && !v.isOpen && v.fileNumber > 0 && 1 <= k <= MAX_STANAG_BLOCKS
    requires DiskHolds(v.sectors, stored)
    ensures Files(v) != [] && Cuttable(v, InErase(k))
    ensures var t := LoadAll(CutSectors(v, InErase(k)));
      forall j :: 0 <= j < MAX_STANAG_BLOCKS ==> Shows(t[j], if j < k then KeptFile(Files(v)) else stored, j)
    ensures BlockFromImage(CutSectors(v, InErase(k))[1]).magicNumber == MAGIC
  {
    KeptIsWritable(v);
    var table, kept := TmatsTable(v.table), KeptFile(Files(v));
    assert Cuttable(v, InErase(k)) && CutSectors(v, InErase(k)) == StoredAll(v.sectors, table, k);
    LoadsAfterErase(v.sectors, table, k);
    LoadsWhatWasStored(table[0]);
    ShowsEveryBlock(LoadAll(v.sectors), stored);
    hide StoreBlock, LoadBlock, BlockFromImage, Shows, LoadAll, TmatsTable, Files, CutSectors, Sound;
    forall j | 0 <= j < MAX_STANAG_BLOCKS
      ensures Shows(LoadAll(StoredAll(v.sectors, table, k))[j], if j < k then kept else stored, j)
    {
      if j < k {
        LiveEntriesSurvive(table, kept, j);
      }
    }
  }

  // The cartridge then holds a list exactly when the old one had no entries
  // behind the blocks rewritten so far; it is the one of the kept file.
  lemma TornEraseHolds(v: Vol, stored: seq<FileEntry>, k: nat)
    requires Sound(v) && !v.isOpen && v.fileNumber > 0 && 1 <= k <= MAX_STANAG_BLOCKS
    requires DiskHolds(v.sectors, stored)
    ensures Files(v) != [] && Cuttable(v, InErase(k))
    ensures (exists list :: DiskHolds(CutSectors(v, InErase(k)), list)) <==> |stored| <= 4 * k
    ensures |stored| <= 4 * k ==> DiskHolds(CutSectors(v, InErase(k)), KeptFile(Files(v)))
  {
    TornBlocks(v, stored, k);
    KeptIsWritable(v);
    ListFits(v.sectors, stored);
    hide CutSectors, LoadAll, BlockFromImage, Sound, Files, Cuttable, Shows, Writable, Plausible, DiskHolds;
    TornOnCartridge(CutSectors(v, InErase(k)), stored, KeptFile(Files(v)), k);
  }

  lemma ListFits(sectors: seq<Sector>, stored: seq<FileEntry>)
    requires DiskHolds(sectors, stored)
    ensures |stored| <= MAX_NUM_FILES && |sectors| >= RESERVED_BLOCKS
  {
  }

  lemma TornOnCartridge(s: seq<Sector>, stored: seq<FileEntry>, kept: seq<FileEntry>, k: nat)
    requires |s| >= RESERVED_BLOCKS && BlockFromImage(s[1]).magicNumber == MAGIC
    requires |stored| <= MAX_NUM_FILES && |kept| == 1 && 1 <= k <= MAX_STANAG_BLOCKS
    requires forall j :: 0 <= j < MAX_STANAG_BLOCKS ==> Shows(LoadAll(s)[j], if j < k then kept else stored, j)
    ensures (exists list :: DiskHolds(s, list)) <==> |stored| <= 4 * k
    ensures |stored| <= 4 * k ==> DiskHolds(s, kept)
  {
    hide LoadAll, BlockFromImage, Shows, Holds;
    TornTable(LoadAll(s), stored, kept, k);
    if |stored| <= 4 * k {
      assert DiskHolds(s, kept);
    } else {
      forall list ensures !DiskHolds(s, list) {
        assert !Holds(LoadAll(s), list);
      }
    }
  }

  lemma TornTable(t: seq<DirBlock>, stored: seq<FileEntry>, kept: seq<FileEntry>, k: nat)
    requires |t| == MAX_STANAG_BLOCKS && |stored| <= MAX_NUM_FILES && |kept| == 1 && 1 <= k <= MAX_STANAG_BLOCKS
    requires forall j :: 0 <= j < MAX_STANAG_BLOCKS ==> Shows(t[j], if j < k then kept else stored, j)
    ensures |stored| <= 4 * k ==> Holds(t, kept)
    ensures |stored| > 4 * k ==> forall list :: !Holds(t, list)
  {
    hide Shows, Holds;
    if |stored| <= 4 * k {
      forall j | 0 <= j < MAX_STANAG_BLOCKS ensures Shows(t[j], kept, j) {
        assert Shows(t[j], if j < k then kept else stored, j);
        if j >= k {
          NothingToShow(t[j], stored, kept, j);
        }
      }
      HoldsBlockwise(t, kept);
    } else {
      assert Shows(t[0], if 0 < k then kept else stored, 0) && Shows(t[k], if k < k then kept else stored, k);
      ShownCounts(t[0], kept, 0);
      ShownCounts(t[k], stored, k);
      forall list ensures !Holds(t, list) {
        TornTableHoldsNothing(t, list, k);
      }
    }
  }

  lemma NothingToShow(block: DirBlock, stored: seq<FileEntry>, files: seq<FileEntry>, j: nat)
    requires Shows(block, stored, j) && |stored| <= 4 * j && |files| <= 4 * j
    ensures Shows(block, files, j)
  {
  }

  lemma ShownCounts(block: DirBlock, files: seq<FileEntry>, j: nat)
    requires Shows(block, files, j) && 4 * j < |files|
    ensures block.numberOfFileEntries == if |files| >= 4 * j + 4 then 4 else |files| - 4 * j
  {
  }

  // One file in the first block, and more entries in a later one.
  lemma TornTableHoldsNothing(t: seq<DirBlock>, files: seq<FileEntry>, k: nat)
    requires |t| == MAX_STANAG_BLOCKS && 1 <= k < MAX_STANAG_BLOCKS
    requires t[0].numberOfFileEntries == 1 && t[k].numberOfFileEntries != 0
    ensures !Holds(t, files)
  {
  }

  // sinit after such an erase, in a configuration without node files: the
  // allocator invariant holds of no list unless the old list had ended within
  // the rewritten blocks; then it holds of the kept file alone.
  lemma TornEraseStartup(v: Vol, stored: seq<FileEntry>, k: nat)
    requires Sound(v) && !v.isOpen && v.fileNumber > 0 && 1 <= k <= MAX_STANAG_BLOCKS
    requires DiskHolds(v.sectors, stored)
    ensures Files(v) != [] && Cuttable(v, InErase(k))
    ensures var w := PowerCycled(v.(sectors := CutSectors(v, InErase(k))), {}, false);
      && ((exists files :: Inv(w, files)) <==> |stored| <= 4 * k)
      && (|stored| <= 4 * k ==> Inv(w, KeptFile(Files(v))))
  {
    TornBlocks(v, stored, k);
    TornEraseHolds(v, stored, k);
    KeptIsWritable(v);
    var s := CutSectors(v, InErase(k));
    var w := PowerCycled(v.(sectors := s), {}, false);
    assert |s| >= RESERVED_BLOCKS && |stored| <= MAX_NUM_FILES;
    TornMount(v, s);
    hide CutSectors, LoadAll, BlockFromImage, Sound, Files, Cuttable, PowerCycled;
    if |stored| <= 4 * k {
      hide Inv, Plausible, DiskHolds, Shows;
      RestartOn(v, s, KeptFile(Files(v)));
    } else {
      assert Shows(LoadAll(s)[0], KeptFile(Files(v)), 0) && Shows(LoadAll(s)[k], stored, k);
      forall files ensures !Inv(w, files) {
        TornTableHoldsNothing(LoadAll(s), files, k);
      }
    }
  }

  lemma TornMount(v: Vol, s: seq<Sector>)
    requires |s| >= RESERVED_BLOCKS && BlockFromImage(s[1]).magicNumber == MAGIC
    ensures var w, t := PowerCycled(v.(sectors := s), {}, false), LoadAll(s);
      w.table == t && w.fileNumber == CountTo(t, FirstEmpty(t, 0))
  {
    hide LoadAll, BlockFromImage, FirstEmpty, CountTo, RecoveredWriteBlock;
  }

  lemma RestartOn(v: Vol, s: seq<Sector>, list: seq<FileEntry>)
    requires DiskHolds(s, list) && Plausible(list) && |list| <= MAX_RECOVERABLE_FILES
    ensures Inv(PowerCycled(v.(sectors := s), {}, false), list)
  {
    hide Mounted, LoadAll, BlockFromImage, Inv, Plausible, Holds;
    MountIsSound(v.(sectors := s, totalBytes := 0, blocksWritten := 0, nodeList := NoNodeBlocks()),
                 list, {}, false);
  }

  // What sinit counts otherwise: after the first write the kept file and all
  // old ones behind block 0, from the second on the kept file alone, with old
  // entries left in the table.
  lemma TornEraseCounts(v: Vol, stored: seq<FileEntry>, k: nat)
    requires Sound(v) && !v.isOpen && v.fileNumber > 0 && 1 <= k <= MAX_STANAG_BLOCKS
    requires DiskHolds(v.sectors, stored) && 4 * k < |stored|
    ensures Cuttable(v, InErase(k))
    ensures var w := PowerCycled(v.(sectors := CutSectors(v, InErase(k))), {}, false);
      && w.fileNumber == (if k == 1 then |stored| - 3 else 1)
      && |w.table| == MAX_STANAG_BLOCKS && w.table[k].numberOfFileEntries > 0
  {
    TornBlocks(v, stored, k);
    var s := CutSectors(v, InErase(k));
    assert |s| >= RESERVED_BLOCKS && |stored| <= MAX_NUM_FILES;
    TornMount(v, s);
    hide CutSectors, LoadAll, BlockFromImage, Sound, Files, Cuttable, PowerCycled, DiskHolds;
    var t := LoadAll(s);
    assert Shows(t[0], KeptFile(Files(v)), 0) && Shows(t[k], stored, k);
    assert Shows(t[1], if 1 < k then KeptFile(Files(v)) else stored, 1);
    if k == 1 {
      assert forall j :: 1 <= j < MAX_STANAG_BLOCKS ==> Shows(t[j], stored, j);
      assert forall j :: 1 <= j < MAX_STANAG_BLOCKS ==> t[j].numberOfFileEntries == Live(|stored|, j);
      FirstEmptyBehind(t, |stored|, 1);
      assert FirstEmpty(t, 0) == FirstEmpty(t, 1);
      CountBehind(t, |stored|, FirstEmpty(t, 0));
    } else {
      assert FirstEmpty(t, 0) == FirstEmpty(t, 1) == 1;
      assert CountTo(t, 1) == CountTo(t, 0) + 1;
    }
  }

  // The same where sinit looks for node files: it must also be able to read
  // the block behind the kept file.
  lemma TornEraseStartupWithNodes(v: Vol, stored: seq<FileEntry>, k: nat, faults: set<nat>)
    requires Sound(v) && !v.isOpen && v.fileNumber > 0 && 1 <= k <= MAX_STANAG_BLOCKS
    requires DiskHolds(v.sectors, stored) && DirectoryReadable(v.sectors, faults)
    ensures Files(v) != [] && Cuttable(v, InErase(k))
    ensures Addressable(KeptFile(Files(v))) ==>
      var s := CutSectors(v, InErase(k));
      (exists files :: Inv(PowerCycled(v.(sectors := s), faults, true), files))
      <==> |stored| <= 4 * k && Readable(s, faults, EndOfFiles(KeptFile(Files(v))))
  {
    hide CutSectors, DiskHolds, Mounted, Inv, Sound, Files, Plausible, Writable, Cuttable, LoadAll, BlockFromImage,
         Shows, Holds;
    TornEraseHolds(v, stored, k);
    KeptIsWritable(v);
    var s, kept := CutSectors(v, InErase(k)), KeptFile(Files(v));
    if |stored| <= 4 * k && Addressable(kept) {
      var start := v.(sectors := s, totalBytes := 0, blocksWritten := 0, nodeList := NoNodeBlocks());
      OneFileProbed(s, faults, kept);
      assert PowerCycled(v.(sectors := s), faults, true) == Mounted(start, faults, true);
      ProbingMountKeepsInv(start, kept, faults);
    } else if |stored| > 4 * k {
      TornBlocks(v, stored, k);
      TornEraseCounts(v, stored, k);
      ListFits(v.sectors, stored);
      FirstAndTorn(LoadAll(s), kept, stored, k);
      NoListAfterProbe(v, s, stored, kept, k, faults);
    }
  }

  lemma FirstAndTorn(t: seq<DirBlock>, kept: seq<FileEntry>, stored: seq<FileEntry>, k: nat)
    requires |t| == MAX_STANAG_BLOCKS && 1 <= k < MAX_STANAG_BLOCKS
    requires forall j :: 0 <= j < MAX_STANAG_BLOCKS ==> Shows(t[j], if j < k then kept else stored, j)
    ensures Shows(t[0], kept, 0) && Shows(t[k], stored, k)
  {
    hide Shows;
    assert Shows(t[0], if 0 < k then kept else stored, 0) && Shows(t[k], if k < k then kept else stored, k);
  }

  lemma OneFileProbed(s: seq<Sector>, faults: set<nat>, kept: seq<FileEntry>)
    requires |kept| == 1
    ensures Probeable(s, faults, kept, 0) <==> Readable(s, faults, EndOfFiles(kept))
  {
  }

  lemma NoListAfterProbe(v: Vol, s: seq<Sector>, stored: seq<FileEntry>, kept: seq<FileEntry>, k: nat, faults: set<nat>)
    requires |s| >= RESERVED_BLOCKS && DirectoryReadable(s, faults) && BlockFromImage(s[1]).magicNumber == MAGIC
    requires 1 <= k && 4 * k < |stored| <= MAX_NUM_FILES && |kept| == 1
    requires Shows(LoadAll(s)[0], kept, 0) && Shows(LoadAll(s)[k], stored, k)
    requires PowerCycled(v.(sectors := s), {}, false).fileNumber > 0
    ensures !exists files :: Inv(PowerCycled(v.(sectors := s), faults, true), files)
  {
    var start := v.(sectors := s, totalBytes := 0, blocksWritten := 0, nodeList := NoNodeBlocks());
    var w := Mounted(start, faults, true);
    hide LoadAll, BlockFromImage, Probe, InitTable, FirstEmpty, CountTo, RecoveredWriteBlock, NodeReserve;
    MountedByProbe(start, faults);
    assert w.fileNumber > 0 && (w.table == LoadAll(s) || w.table == InitTable());
    hide Mounted, Inv;
    forall files ensures !Inv(w, files) {
      if Inv(w, files) {
        TableHolds(w, files);
        if w.table == InitTable() {
          ClearedTableHasNoFiles(w, files);
        } else {
          TornTableHoldsNothing(LoadAll(s), files, k);
        }
      }
    }
  }

  lemma TableHolds(w: Vol, files: seq<FileEntry>)
    requires Inv(w, files)
    ensures Holds(w.table, files)
  {
  }

  lemma {:induction false} FirstEmptyBehind(t: seq<DirBlock>, n: nat, j: nat)
    requires |t| == MAX_STANAG_BLOCKS && 4 < n <= MAX_NUM_FILES && 1 <= j <= (n + 3) / 4
    requires forall i :: 1 <= i < MAX_STANAG_BLOCKS ==> t[i].numberOfFileEntries == Live(n, i)
    ensures FirstEmpty(t, j) == (n + 3) / 4
    decreases MAX_STANAG_BLOCKS - j
  {
    if j < (n + 3) / 4 {
      assert Live(n, j) != 0;
      FirstEmptyBehind(t, n, j + 1);
    } else if j < MAX_STANAG_BLOCKS {
      assert Live(n, j) == 0;
    }
  }

  lemma {:induction false} CountBehind(t: seq<DirBlock>, n: nat, j: nat)
    requires |t| == MAX_STANAG_BLOCKS && 4 < n <= MAX_NUM_FILES && 1 <= j <= (n + 3) / 4
    requires t[0].numberOfFileEntries == 1
    requires forall i :: 1 <= i < MAX_STANAG_BLOCKS ==> t[i].numberOfFileEntries == Live(n, i)
    ensures CountTo(t, j) == if 4 * j <= n then 4 * j - 3 else n - 3
  {
    if j > 1 {
      CountBehind(t, n, j - 1);
    } else {
      assert CountTo(t, 1) == CountTo(t, 0) + 1;
    }
  }

  // Nine files, power lost after the first of the 128 writes: sinit counts
  // six, which is neither the old list nor the kept file.
  lemma NineFilesBecomeSix(v: Vol, stored: seq<FileEntry>)
    requires Sound(v) && !v.isOpen && v.fileNumber > 0 && DiskHolds(v.sectors, stored) && |stored| == 9
    ensures Cuttable(v, InErase(1))
    ensures var w := PowerCycled(v.(sectors := CutSectors(v, InErase(1))), {}, false);
      w.fileNumber == 6 && forall files :: !Inv(w, files)
  {
    TornEraseCounts(v, stored, 1);
    TornEraseStartup(v, stored, 1);
    hide CutSectors, Inv, PowerCycled, Sound, DiskHolds;
  }
}
