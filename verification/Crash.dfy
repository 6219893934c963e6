// sinit after a loss of power.
module Crash {
  import opened Bytes
  import opened DirectoryFormat
  import opened Directory
  import opened Volume
  import opened VolumeInvariant
  import opened Recovery

  /* ---------- what sinit counts ---------- */

  lemma {:induction false} FirstEmptyOfHeld(table: seq<DirBlock>, files: seq<FileEntry>, j: nat)
    requires Holds(table, files) && j <= (|files| + 3) / 4
    ensures FirstEmpty(table, j) == (|files| + 3) / 4
    decreases MAX_STANAG_BLOCKS - j
  {
    if j < (|files| + 3) / 4 {
      assert Live(|files|, j) != 0;
      FirstEmptyOfHeld(table, files, j + 1);
    } else if j < MAX_STANAG_BLOCKS {
      assert Live(|files|, j) == 0;
    }
  }

  lemma {:induction false} CountOfHeld(table: seq<DirBlock>, files: seq<FileEntry>, j: nat)
    requires Holds(table, files) && j <= MAX_STANAG_BLOCKS
    ensures CountTo(table, j) == if 4 * j <= |files| then 4 * j else |files|
  {
    if j > 0 {
      CountOfHeld(table, files, j - 1);
    }
  }

  // The recovered cursor is the end of the last file exactly when the
  // directory leaves a block empty; with 509 files or more recovery puts the
  // cursor back to the first data block.
  lemma RecoveredCursor(table: seq<DirBlock>, files: seq<FileEntry>)
    requires Holds(table, files) && EndOfFiles(files) < TWO64
    ensures RecoveredWriteBlock(table)
         == if |files| <= MAX_RECOVERABLE_FILES then EndOfFiles(files) else RESERVED_BLOCKS
    ensures RecoveredWriteBlock(table) == EndOfFiles(files)
       <==> |files| <= MAX_RECOVERABLE_FILES || EndOfFiles(files) == RESERVED_BLOCKS
  {
    var n := |files|;
    FirstEmptyOfHeld(table, files, 0);
    CountOfHeld(table, files, (n + 3) / 4);
    if 0 < n <= MAX_RECOVERABLE_FILES {
      assert table[(n - 1) / 4].fileEntries[(n - 1) % 4] == files[n - 1];
      assert (n + 3) / 4 - 1 == (n - 1) / 4;
    }
  }

  lemma LoadKeepsMagic(sectors: seq<Sector>)
    requires |sectors| >= RESERVED_BLOCKS
    ensures LoadAll(sectors)[0].magicNumber == BlockFromImage(sectors[1]).magicNumber
  {
    hide BlockFromImage;
    assert LoadAll(sectors)[0] == LoadBlock(sectors[1]);
  }

  // sinit brings back exactly the file sequence on the cartridge.
  lemma MountRecovers(v: Vol, stored: seq<FileEntry>, faults: set<nat>)
    requires DiskHolds(v.sectors, stored) && DirectoryReadable(v.sectors, faults)
    requires |stored| <= MAX_RECOVERABLE_FILES && EndOfFiles(stored) < TWO64 && |v.nodeList| == MAX_NUM_FILES
    ensures var m := Mounted(v, faults, false);
      && Holds(m.table, stored) && FilesOf(m.table) == stored
      && m == v.(table := m.table, fileNumber := |stored|, fileIndex := |stored|, isOpen := false,
                 writeBlock := EndOfFiles(stored))
      && (stored != [] ==> m.table == LoadAll(v.sectors) && m.table[0].magicNumber == MAGIC)
  {
    InitTableHoldsNothing();
    hide LoadBlock, FirstEmpty, CountTo, RecoveredWriteBlock, FilesOf, InitTable;
    var t := LoadAll(v.sectors);
    assert t[0].magicNumber == BlockFromImage(v.sectors[1]).magicNumber by {
      LoadKeepsMagic(v.sectors);
    }
    FirstEmptyOfHeld(t, stored, 0);
    CountOfHeld(t, stored, (|stored| + 3) / 4);
    CountOfHeld(t, stored, MAX_STANAG_BLOCKS);
    RecoveredCursor(t, stored);
    HeldFilesAreScanned(Mounted(v, faults, false).table, stored);
  }

  lemma LoadedEntriesArePadded(s: Sector, i: nat)
    requires i < 4
    ensures PaddedEntry(LoadBlock(s).fileEntries[i])
  {
    var e := BlockFromImage(s).fileEntries[i];
    PaddedIsPadded(e.fileName);
    PaddedIsPadded(e.createDate);
    PaddedIsPadded(e.createTime);
    PaddedIsPadded(e.reserved);
    PaddedIsPadded(e.closeTime);
  }

  // What is on the cartridge is a list the allocator could have produced.
  ghost predicate Plausible(stored: seq<FileEntry>) {
    && Ordered(stored) && |stored| <= MAX_FILES
    && forall k :: 0 <= k < |stored| ==> Placed(stored[k], k)
  }

  lemma StoredEntriesArePadded(sectors: seq<Sector>, stored: seq<FileEntry>)
    requires DiskHolds(sectors, stored)
    ensures forall k :: 0 <= k < |stored| ==> PaddedEntry(stored[k])
  {
    hide LoadBlock, BlockFromImage, PaddedEntry;
    forall k | 0 <= k < |stored| ensures PaddedEntry(stored[k]) {
      LoadedEntriesArePadded(sectors[SYSTEM_RESERVE_BLOCKS + k / 4], k % 4);
      assert LoadAll(sectors)[k / 4].fileEntries[k % 4] == stored[k];
    }
  }

  /* ---------- crash recovery ---------- */

  // Losing power while a file is open, and running sinit, gives the state
  // that Emergency_Close would have given - exactly when the cartridge holds
  // the current list, as TwoBlockWriteBack says it does after an update.
  lemma CrashEqualsEmergencyClose(v: Vol, files: seq<FileEntry>, stored: seq<FileEntry>, increment: bool)
    requires Inv(v, files) && v.isOpen
    requires DiskHolds(v.sectors, stored) && |stored| <= MAX_RECOVERABLE_FILES && EndOfFiles(stored) < TWO64
    ensures var m, c := PowerCycled(v, {}, false), EmergencyClosed(v, increment);
      (FilesOf(m.table) == FilesOf(c.table) && m.fileNumber == c.fileNumber && m.writeBlock == c.writeBlock)
      <==> stored == files
  {
    EmergencyCloseKeepsInv(v, files, increment);
    HeldFilesAreScanned(EmergencyClosed(v, increment).table, files);
    MountRecovers(v.(totalBytes := 0, blocksWritten := 0, nodeList := NoNodeBlocks()), stored, {});
  }

  // Losing power after sopen but before the first update gives the state
  // before sopen; only space reserved for a node file is found again.
  lemma CrashBeforeFirstUpdate(v: Vol, files: seq<FileEntry>, name: Text56, date: Text8, time: Text8)
    requires Inv(v, files) && !v.isOpen && |files| <= MAX_RECOVERABLE_FILES
    requires DiskHolds(v.sectors, files)
    ensures CanOpen(v)
    ensures var m := PowerCycled(Opened(v, name, date, time), {}, false);
      && FilesOf(m.table) == files && m.fileNumber == v.fileNumber && !m.isOpen
      && m.sectors == v.sectors && m.totalBytes == m.blocksWritten == 0
      && (m.writeBlock == v.writeBlock <==> v.writeBlock == EndOfFiles(files))
  {
    OpenedTableHolds(v.table, files, NewEntry(name, v.writeBlock, date, time));
    var w := Opened(v, name, date, time);
    MountRecovers(w.(totalBytes := 0, blocksWritten := 0, nodeList := NoNodeBlocks()), files, {});
  }
}
