// sinit in the configurations that keep a node file behind every recording.
module NodeRecovery {
  import opened Bytes
  import opened DirectoryFormat
  import opened Directory
  import opened DiskIo
  import opened NodeFile
  import opened Volume
  import opened VolumeInvariant
  import opened Recovery
  import opened Crash

  // Every block in which sinit looks for a node file can be read.
  predicate Probeable(sectors: seq<Sector>, faults: set<nat>, files: seq<FileEntry>, k: nat) {
    forall i :: k <= i < |files| ==> Readable(sectors, faults, End(files[i]))
  }

  // A node file sits right behind file i.
  predicate HasNodeFile(sectors: seq<Sector>, files: seq<FileEntry>, i: nat) {
    i < |files| && End(files[i]) < |sectors| && IsNodeFile(sectors[End(files[i])])
  }

  // The entry count sinit ends up with: that of the last node file found.
  function LastCount(sectors: seq<Sector>, files: seq<FileEntry>, k: nat): U32
    requires k <= |files|
  {
    if k == 0 then 0
    else if HasNodeFile(sectors, files, k - 1) then NodeCount(sectors[End(files[k - 1])])
    else LastCount(sectors, files, k - 1)
  }

  // What the scan does at file p.
  function AfterFile(sectors: seq<Sector>, files: seq<FileEntry>, p: nat, so: Probed): Probed
    requires p < |so.nodeList|
  {
    if HasNodeFile(sectors, files, p)
    then so.(nodeList := so.nodeList[p := End(files[p])], numBlock := NodeCount(sectors[End(files[p])]))
    else so
  }

  lemma ProbeAtFile(table: seq<DirBlock>, files: seq<FileEntry>, sectors: seq<Sector>, faults: set<nat>, p: nat,
                    so: Probed)
    requires Holds(table, files) && p < |files| && |so.nodeList| == MAX_NUM_FILES
    requires End(files[p]) < 0x1_0000_0000
    ensures Probe(table, sectors, faults, p, so)
         == if Readable(sectors, faults, End(files[p]))
            then Probe(table, sectors, faults, p + 1, AfterFile(sectors, files, p, so)) else so.(ok := false)
  {
    assert table[p / 4].fileEntries[p % 4] == files[p];
    assert table[p / 4].numberOfFileEntries == Live(|files|, p / 4) && p % 4 < Live(|files|, p / 4);
    hide Holds, IsNodeFile, NodeCount, Live;
  }

  lemma {:induction false} ProbeBehindFiles(table: seq<DirBlock>, files: seq<FileEntry>, sectors: seq<Sector>,
                                            faults: set<nat>, p: nat, so: Probed)
    requires Holds(table, files) && |files| <= p <= MAX_NUM_FILES && |so.nodeList| == MAX_NUM_FILES
    ensures Probe(table, sectors, faults, p, so) == so
    decreases MAX_NUM_FILES - p
  {
    if p < MAX_NUM_FILES {
      assert table[p / 4].numberOfFileEntries == Live(|files|, p / 4) && p % 4 >= Live(|files|, p / 4);
      hide Holds, IsNodeFile, NodeCount, Live;
      ProbeBehindFiles(table, files, sectors, faults, p + 1, so);
    }
  }

  // r is what the scan from file p on makes of so.
  ghost predicate Outcome(sectors: seq<Sector>, faults: set<nat>, files: seq<FileEntry>, p: nat, so: Probed, r: Probed)
    requires |so.nodeList| == |r.nodeList| == MAX_NUM_FILES && |files| <= MAX_NUM_FILES && p <= |files|
  {
    && (r.ok <==> Probeable(sectors, faults, files, p))
    && (r.ok ==> r.numBlock == LastCount(sectors, files, |files|))
    && (r.ok ==> forall i :: p <= i < |files| && HasNodeFile(sectors, files, i) ==> r.nodeList[i] == End(files[i]))
    && (forall i :: 0 <= i < p ==> r.nodeList[i] == so.nodeList[i])
  }

  // The scan over the table positions in terms of the files.
  lemma {:induction false} ProbeResult(table: seq<DirBlock>, files: seq<FileEntry>, sectors: seq<Sector>,
                                       faults: set<nat>, p: nat, so: Probed)
    requires Holds(table, files) && p <= |files| && |so.nodeList| == MAX_NUM_FILES && so.ok
    requires forall i :: 0 <= i < |files| ==> End(files[i]) < 0x1_0000_0000
    requires so.numBlock == LastCount(sectors, files, p)
    ensures Outcome(sectors, faults, files, p, so, Probe(table, sectors, faults, p, so))
    decreases |files| - p
  {
    assert |files| <= MAX_NUM_FILES;
    hide Holds, Probe, IsNodeFile, NodeCount, End;
    if p == |files| {
      ProbeBehindFiles(table, files, sectors, faults, p, so);
    } else {
      ProbeAtFile(table, files, sectors, faults, p, so);
      if Readable(sectors, faults, End(files[p])) {
        var next := AfterFile(sectors, files, p, so);
        ProbeResult(table, files, sectors, faults, p + 1, next);
        OutcomeFrom(sectors, faults, files, p, so, Probe(table, sectors, faults, p + 1, next));
      }
    }
  }

  lemma OutcomeFrom(sectors: seq<Sector>, faults: set<nat>, files: seq<FileEntry>, p: nat, so: Probed, r: Probed)
    requires |so.nodeList| == |r.nodeList| == MAX_NUM_FILES && p < |files| <= MAX_NUM_FILES
    requires Readable(sectors, faults, End(files[p]))
    requires Outcome(sectors, faults, files, p + 1, AfterFile(sectors, files, p, so), r)
    ensures Outcome(sectors, faults, files, p, so, r)
  {
    ProbeableFrom(sectors, faults, files, p);
    hide Probeable, LastCount, IsNodeFile, NodeCount;
  }

  lemma ProbeableFrom(sectors: seq<Sector>, faults: set<nat>, files: seq<FileEntry>, p: nat)
    requires p < |files|
    ensures Probeable(sectors, faults, files, p)
       <==> Readable(sectors, faults, End(files[p])) && Probeable(sectors, faults, files, p + 1)
  {
  }

  // Probing computes with 32-bit block addresses.
  predicate Addressable(files: seq<FileEntry>) {
    forall i :: 0 <= i < |files| ==> End(files[i]) < 0x1_0000_0000
  }

  // What sinit reserves behind the last file for a node file.
  function Reserve(sectors: seq<Sector>, files: seq<FileEntry>, probe: bool): (b: nat)
    ensures b <= 0x400_0001
  {
    if probe then NodeReserve(LastCount(sectors, files, |files|)) else 0
  }

  // sinit can read all it looks at.
  ghost predicate Mountable(sectors: seq<Sector>, faults: set<nat>, stored: seq<FileEntry>, probe: bool) {
    && DiskHolds(sectors, stored) && |stored| <= MAX_RECOVERABLE_FILES && DirectoryReadable(sectors, faults)
    && (probe ==> Addressable(stored) && Probeable(sectors, faults, stored, 0))
  }

  // In either configuration sinit restores the list on the cartridge, and
  // reserves the last node file it found behind the last recording.
  lemma {:induction false} MountRestores(v: Vol, stored: seq<FileEntry>, faults: set<nat>, probe: bool)
    requires Mountable(v.sectors, faults, stored, probe)
    requires EndOfFiles(stored) + 0x400_0001 < TWO64 && |v.nodeList| == MAX_NUM_FILES
    ensures var m := Mounted(v, faults, probe);
      && Holds(m.table, stored) && (stored != [] ==> m.table == LoadAll(v.sectors) && m.table[0].magicNumber == MAGIC)
      && m == v.(table := m.table, fileNumber := |stored|, fileIndex := |stored|, isOpen := false,
                 nodeList := m.nodeList, writeBlock := EndOfFiles(stored) + Reserve(v.sectors, stored, probe))
      && |m.nodeList| == MAX_NUM_FILES
      && (stored == [] ==> Reserve(v.sectors, stored, probe) == 0)
      && (probe ==> forall i :: 0 <= i < |stored| && HasNodeFile(v.sectors, stored, i) ==>
            m.nodeList[i] == End(stored[i]))
  {
    hide LoadBlock, BlockFromImage, FilesOf, Probe, InitTable, Holds, FirstEmpty, CountTo, RecoveredWriteBlock,
         IsNodeFile, NodeCount, HasNodeFile, LastCount, Probeable, NodeReserve, DiskHolds;
    MountRecovers(v, stored, faults);
    NoneCounted(v.sectors, stored);
    if probe {
      if BlockFromImage(v.sectors[1]).magicNumber == MAGIC {
        ProbeOnCartridge(v, stored, faults);
        MountedByProbe(v, faults);
      } else {
        MountedWithoutMagic(v, stored, faults);
      }
    }
  }

  lemma MountedWithoutMagic(v: Vol, stored: seq<FileEntry>, faults: set<nat>)
    requires DiskHolds(v.sectors, stored) && |v.nodeList| == MAX_NUM_FILES
    requires BlockFromImage(v.sectors[1]).magicNumber != MAGIC
    ensures stored == [] && Mounted(v, faults, true) == Mounted(v, faults, false)
    ensures |Mounted(v, faults, false).nodeList| == MAX_NUM_FILES
  {
    hide LoadAll, BlockFromImage, Probe, InitTable;
  }

  lemma {:induction false} ProbeOnCartridge(v: Vol, stored: seq<FileEntry>, faults: set<nat>)
    requires DiskHolds(v.sectors, stored) && |v.nodeList| == MAX_NUM_FILES && Addressable(stored)
    ensures Outcome(v.sectors, faults, stored, 0, Probed(true, v.nodeList, 0),
                    Probe(LoadAll(v.sectors), v.sectors, faults, 0, Probed(true, v.nodeList, 0)))
  {
    NoneCounted(v.sectors, stored);
    hide LoadAll, BlockFromImage, Probe, Outcome, LastCount;
    ProbeResult(LoadAll(v.sectors), stored, v.sectors, faults, 0, Probed(true, v.nodeList, 0));
  }

  lemma {:induction false} NoneCounted(sectors: seq<Sector>, files: seq<FileEntry>)
    ensures LastCount(sectors, files, 0) == 0 && Reserve(sectors, [], true) == 0
  {
  }

  // sinit with the probe, in terms of sinit without it.
  lemma {:induction false} MountedByProbe(v: Vol, faults: set<nat>)
    requires |v.nodeList| == MAX_NUM_FILES && DirectoryReadable(v.sectors, faults)
    requires BlockFromImage(v.sectors[1]).magicNumber == MAGIC
    ensures var m := Mounted(v, faults, false);
            var r := Probe(LoadAll(v.sectors), v.sectors, faults, 0, Probed(true, v.nodeList, 0));
      Mounted(v, faults, true)
      == if r.ok then m.(nodeList := r.nodeList,
                         writeBlock := (m.writeBlock + NodeReserve(r.numBlock)) % TWO64)
         else m.(table := InitTable(), nodeList := r.nodeList)
    ensures |Probe(LoadAll(v.sectors), v.sectors, faults, 0, Probed(true, v.nodeList, 0)).nodeList| == MAX_NUM_FILES
  {
    hide LoadAll, BlockFromImage, Probe, InitTable, FirstEmpty, CountTo, RecoveredWriteBlock;
  }

  // The recovered cursor never falls into a recording or into a node file of
  // the list: those of earlier recordings end before the next one starts, and
  // the last one is skipped.
  lemma CursorClearsNodeFiles(v: Vol, stored: seq<FileEntry>, faults: set<nat>, k: nat, nodes: seq<Node>)
    requires Mountable(v.sectors, faults, stored, true) && |v.nodeList| == MAX_NUM_FILES && Ordered(stored)
    requires k < |stored| && nodes != [] && Fits(|nodes|) && StoredAt(v.sectors, End(stored[k]), nodes)
    requires k < |stored| - 1 ==> End(stored[k]) + NodeFileBlocks(|nodes|) <= stored[k + 1].startAddress
    ensures Mounted(v, faults, true).writeBlock >= End(stored[k]) + NodeFileBlocks(|nodes|)
    ensures Mounted(v, faults, true).nodeList[k] == End(stored[k])
    ensures k == |stored| - 1 ==>
      Mounted(v, faults, true).writeBlock == EndOfFiles(stored) + NodeFileBlocks(|nodes|)
  {
    hide Mounted, DiskHolds, StoredAt, IsNodeFile, NodeCount, HasNodeFile, LastCount, Reserve, NodeFileBlocks, Fits,
         Holds, LoadAll, Probeable, DirectoryReadable, NodeReserve;
    assert EndOfFiles(stored) < 0x1_0000_0000;
    MountRestores(v, stored, faults, true);
    StoredNodeFileIsFound(v.sectors, stored, k, nodes);
    if k < |stored| - 1 {
      EndBound(stored, k + 1);
    }
  }

  // A node file behind recording k is found; behind the last one its count
  // decides what is reserved.
  lemma {:induction false} StoredNodeFileIsFound(sectors: seq<Sector>, files: seq<FileEntry>, k: nat, nodes: seq<Node>)
    requires k < |files| && Fits(|nodes|) && StoredAt(sectors, End(files[k]), nodes)
    ensures HasNodeFile(sectors, files, k)
    ensures k == |files| - 1 ==> LastCount(sectors, files, |files|) == |nodes|
    ensures k == |files| - 1 ==>
      Reserve(sectors, files, true) == if nodes != [] then NodeFileBlocks(|nodes|) else 0
  {
    HeaderStored(sectors, End(files[k]), nodes);
    StoredInside(sectors, End(files[k]), nodes);
    hide IsNodeFile, NodeCount, StoredAt;
  }

  lemma MountIsSound(v: Vol, stored: seq<FileEntry>, faults: set<nat>, probe: bool)
    requires Mountable(v.sectors, faults, stored, probe) && Plausible(stored) && |v.nodeList| == MAX_NUM_FILES
    requires v.totalBytes == v.blocksWritten == 0
    ensures Inv(Mounted(v, faults, probe), stored)
    ensures Mounted(v, faults, probe).writeBlock == EndOfFiles(stored) + Reserve(v.sectors, stored, probe)
    ensures stored != [] ==> Mounted(v, faults, probe).table == LoadAll(v.sectors)
    ensures Mounted(v, faults, probe).sectors == v.sectors && !Mounted(v, faults, probe).isOpen
  {
    EndOfPlausible(stored);
    assert |v.sectors| >= RESERVED_BLOCKS;
    StoredEntriesArePadded(v.sectors, stored);
    MountRestores(v, stored, faults, probe);
    hide LoadAll, BlockFromImage, Mounted, Holds, Reserve, PaddedEntry, Mountable, DiskHolds, Plausible, Inv,
         HasNodeFile, EndOfFiles;
    RestoredInv(Mounted(v, faults, probe), stored, Reserve(v.sectors, stored, probe));
  }

  lemma EndOfPlausible(stored: seq<FileEntry>)
    requires Plausible(stored)
    ensures EndOfFiles(stored) <= RESERVED_BLOCKS + |stored| * PER_FILE
    ensures EndOfFiles(stored) + 0x400_0001 < TWO64
    ensures RESERVED_BLOCKS <= EndOfFiles(stored)
  {
    if stored != [] {
      FirstBlockBound(stored, |stored| - 1);
      assert Placed(stored[|stored| - 1], |stored| - 1);
    }
  }

  lemma RestoredInv(m: Vol, stored: seq<FileEntry>, reserve: nat)
    requires Plausible(stored) && Holds(m.table, stored) && (stored != [] ==> m.table[0].magicNumber == MAGIC)
    requires forall k :: 0 <= k < |stored| ==> PaddedEntry(stored[k])
    requires m.fileNumber == |stored| && !m.isOpen && m.totalBytes == m.blocksWritten == 0
    requires |m.nodeList| == MAX_NUM_FILES && |m.sectors| >= RESERVED_BLOCKS && reserve <= 0x400_0001
    requires m.writeBlock == EndOfFiles(stored) + reserve && (stored == [] ==> reserve == 0)
    ensures Inv(m, stored)
  {
    EndOfPlausible(stored);
    if stored != [] {
      assert Placed(stored[|stored| - 1], |stored| - 1);
    }
    hide Holds, PaddedEntry;
  }

  // One unreadable block behind any recording makes sinit clear the table but
  // keep the file number: the allocator invariant survives sinit exactly when
  // every probed block can be read.
  lemma {:induction false} ProbingMountKeepsInv(v: Vol, stored: seq<FileEntry>, faults: set<nat>)
    requires DiskHolds(v.sectors, stored) && DirectoryReadable(v.sectors, faults) && Addressable(stored)
    requires |stored| <= MAX_RECOVERABLE_FILES && |v.nodeList| == MAX_NUM_FILES && Plausible(stored)
    requires v.totalBytes == v.blocksWritten == 0
    ensures (exists files :: Inv(Mounted(v, faults, true), files)) <==> Probeable(v.sectors, faults, stored, 0)
    ensures Probeable(v.sectors, faults, stored, 0) ==> Inv(Mounted(v, faults, true), stored)
  {
    if Probeable(v.sectors, faults, stored, 0) {
      hide Mounted, LoadAll, BlockFromImage, LastCount, Holds, PaddedEntry, Plausible, Probeable, Inv, DiskHolds;
      MountIsSound(v, stored, faults, true);
    } else {
      FailedProbe(v, stored, faults);
      hide Mounted, LoadAll, BlockFromImage, Holds, PaddedEntry, Plausible, Inv, InitTable, DiskHolds;
      forall files | Inv(Mounted(v, faults, true), files) ensures false {
        ClearedTableHasNoFiles(Mounted(v, faults, true), files);
      }
    }
  }

  lemma FailedProbe(v: Vol, stored: seq<FileEntry>, faults: set<nat>)
    requires DiskHolds(v.sectors, stored) && DirectoryReadable(v.sectors, faults) && Addressable(stored)
    requires |stored| <= MAX_RECOVERABLE_FILES && |v.nodeList| == MAX_NUM_FILES && EndOfFiles(stored) < TWO64
    requires !Probeable(v.sectors, faults, stored, 0)
    ensures Mounted(v, faults, true).table == InitTable() && Mounted(v, faults, true).fileNumber == |stored| > 0
  {
    hide LoadBlock, BlockFromImage, FilesOf, Probe, InitTable, Holds, FirstEmpty, CountTo, RecoveredWriteBlock,
         IsNodeFile, NodeCount, LastCount, NodeReserve;
    assert stored != [] && BlockFromImage(v.sectors[1]).magicNumber == MAGIC;
    MountRecovers(v, stored, faults);
    ProbeOnCartridge(v, stored, faults);
    MountedByProbe(v, faults);
  }

  lemma ClearedTableHasNoFiles(m: Vol, files: seq<FileEntry>)
    requires Inv(m, files) && m.table == InitTable()
    ensures m.fileNumber == 0
  {
    hide PaddedEntry, Ordered, Placed;
    assert m.table[0].numberOfFileEntries == 0;
    assert Live(|files|, 0) == 0;
  }

  /* ---------- when sinit keeps the invariant ---------- */

  predicate HasMagic(sectors: seq<Sector>)
    requires |sectors| >= RESERVED_BLOCKS
  {
    BlockFromImage(sectors[1]).magicNumber == MAGIC
  }

  // sinit loads a directory.
  predicate FindsDirectory(sectors: seq<Sector>, faults: set<nat>) {
    DirectoryReadable(sectors, faults) && HasMagic(sectors)
  }

  // What the probing loop comes to.
  function Scanned(sectors: seq<Sector>, faults: set<nat>): Probed
    requires |sectors| >= RESERVED_BLOCKS
  {
    Probe(LoadAll(sectors), sectors, faults, 0, Probed(true, NoNodeBlocks(), 0))
  }

  // What sinit reserves, in terms of the probing loop.
  function ScannedReserve(sectors: seq<Sector>, faults: set<nat>, probe: bool): (b: nat)
    requires |sectors| >= RESERVED_BLOCKS
    ensures b <= 0x400_0001
  {
    if probe && Scanned(sectors, faults).ok then NodeReserve(Scanned(sectors, faults).numBlock) else 0
  }

  // sinit finds no directory; or its probe fails, and the first block has no
  // entries; or the loaded directory stands for a list that the allocator
  // could have written, and the cursor is not in front of its end.
  ghost predicate StartsSound(sectors: seq<Sector>, faults: set<nat>, probe: bool)
    requires |sectors| >= RESERVED_BLOCKS
  {
    FindsDirectory(sectors, faults) ==>
      if probe && !Scanned(sectors, faults).ok then LoadAll(sectors)[0].numberOfFileEntries == 0
      else
        var list := StoredFiles(sectors);
        && Holds(LoadAll(sectors), list) && Plausible(list)
        && (|list| <= MAX_RECOVERABLE_FILES
            || EndOfFiles(list) <= RESERVED_BLOCKS + ScannedReserve(sectors, faults, probe))
  }

  // The list sinit then starts with.
  function StartList(sectors: seq<Sector>, faults: set<nat>): seq<FileEntry>
    requires |sectors| >= RESERVED_BLOCKS
  {
    if FindsDirectory(sectors, faults) then StoredFiles(sectors) else []
  }

  function StartCursor(sectors: seq<Sector>, faults: set<nat>, probe: bool): nat
    requires |sectors| >= RESERVED_BLOCKS
  {
    if !FindsDirectory(sectors, faults) then RESERVED_BLOCKS
    else
      ScannedReserve(sectors, faults, probe)
      + if |StoredFiles(sectors)| <= MAX_RECOVERABLE_FILES then EndOfFiles(StoredFiles(sectors)) else RESERVED_BLOCKS
  }

  ghost predicate Cold(v: Vol) {
    |v.sectors| >= RESERVED_BLOCKS && v.totalBytes == v.blocksWritten == 0 && v.nodeList == NoNodeBlocks()
  }

  // One unreadable block among the 128 of the directory, and sinit starts with
  // no files; no other fault matters to it, unless it looks for node files.
  lemma FaultsThatMatter(v: Vol, faults: set<nat>)
    requires |v.nodeList| == MAX_NUM_FILES && |v.sectors| >= 129
    ensures forall a, probe :: 1 <= a <= 128 && a in faults ==>
      var m := Mounted(v, faults, probe); m.table == InitTable() && m.fileNumber == 0 && m.writeBlock == 129
    ensures (forall a :: 1 <= a <= 128 ==> a !in faults) ==> Mounted(v, faults, false) == Mounted(v, {}, false)
  {
    hide LoadAll, BlockFromImage, Probe, InitTable, FirstEmpty, CountTo, RecoveredWriteBlock, NodeReserve;
    forall a, probe | 1 <= a <= 128 && a in faults
      ensures Mounted(v, faults, probe).table == InitTable() && Mounted(v, faults, probe).fileNumber == 0
              && Mounted(v, faults, probe).writeBlock == 129
    {
      assert !DirectoryReadable(v.sectors, faults);
    }
  }

  lemma NoDirectoryStartsEmpty(v: Vol, faults: set<nat>, probe: bool)
    requires Cold(v) && !FindsDirectory(v.sectors, faults)
    ensures var m := Mounted(v, faults, probe);
      Inv(m, []) && m.writeBlock == RESERVED_BLOCKS && m.sectors == v.sectors && !m.isOpen
  {
    InitTableHoldsNothing();
    hide LoadAll, BlockFromImage, InitTable;
  }

  // What sinit makes of a directory it finds.
  lemma MountedShape(v: Vol, faults: set<nat>, probe: bool)
    requires Cold(v) && FindsDirectory(v.sectors, faults)
    ensures var m, t := Mounted(v, faults, probe), LoadAll(v.sectors);
      && m.table == (if probe && !Scanned(v.sectors, faults).ok then InitTable() else t)
      && m.fileNumber == CountTo(t, FirstEmpty(t, 0))
      && m.writeBlock == (RecoveredWriteBlock(t) + ScannedReserve(v.sectors, faults, probe)) % TWO64
      && m.sectors == v.sectors && !m.isOpen && m.totalBytes == m.blocksWritten == 0
      && m.nodeList == (if probe then Scanned(v.sectors, faults).nodeList else v.nodeList)
      && |m.nodeList| == MAX_NUM_FILES
  {
    hide LoadAll, BlockFromImage, Probe, InitTable, FirstEmpty, CountTo, RecoveredWriteBlock, NodeReserve;
  }

  // The probe fails.
  lemma FailedStart(v: Vol, faults: set<nat>)
    requires Cold(v) && FindsDirectory(v.sectors, faults) && !Scanned(v.sectors, faults).ok
    ensures var m := Mounted(v, faults, true);
      && ((exists files :: Inv(m, files)) <==> LoadAll(v.sectors)[0].numberOfFileEntries == 0)
      && (LoadAll(v.sectors)[0].numberOfFileEntries == 0 ==>
            Inv(m, []) && StoredFiles(v.sectors) == [] && m.writeBlock == RESERVED_BLOCKS)
  {
    var m, t := Mounted(v, faults, true), LoadAll(v.sectors);
    hide LoadAll, BlockFromImage, Scanned, InitTable, Mounted, NodeReserve, StoredFiles, FirstEmpty, CountTo,
         RecoveredWriteBlock;
    MountedShape(v, faults, true);
    FirstBlockCounts(v.sectors);
    if t[0].numberOfFileEntries == 0 {
      InitTableHoldsNothing();
      hide Holds;
      assert m.fileNumber == 0 && m.writeBlock == RESERVED_BLOCKS;
      assert Inv(m, []);
    } else {
      hide Inv;
      forall files | Inv(m, files) ensures false {
        ClearedTableHasNoFiles(m, files);
      }
    }
  }

  lemma FirstBlockCounts(sectors: seq<Sector>)
    requires |sectors| >= RESERVED_BLOCKS
    ensures var t := LoadAll(sectors);
      if t[0].numberOfFileEntries == 0
      then CountTo(t, FirstEmpty(t, 0)) == 0 && RecoveredWriteBlock(t) == RESERVED_BLOCKS && StoredFiles(sectors) == []
      else CountTo(t, FirstEmpty(t, 0)) > 0
  {
    var t := LoadAll(sectors);
    hide LoadAll;
    if t[0].numberOfFileEntries != 0 {
      CountPositive(t, FirstEmpty(t, 0));
    }
  }

  // What sinit counts on a table that stands for a list.
  lemma ListCounts(sectors: seq<Sector>, list: seq<FileEntry>)
    requires |sectors| >= RESERVED_BLOCKS && Holds(LoadAll(sectors), list) && Plausible(list)
    ensures var t := LoadAll(sectors);
      && StoredFiles(sectors) == list && CountTo(t, FirstEmpty(t, 0)) == |list|
      && RecoveredWriteBlock(t) == (if |list| <= MAX_RECOVERABLE_FILES then EndOfFiles(list) else RESERVED_BLOCKS)
  {
    var t := LoadAll(sectors);
    EndOfPlausible(list);
    hide LoadAll, FirstEmpty, CountTo, RecoveredWriteBlock, FilesOf, Holds, Plausible, EndOfFiles;
    HeldFilesAreScanned(t, list);
    FirstEmptyOfHeld(t, list, 0);
    assert |list| <= MAX_FILES by {
      hide Holds;
      InOrder(list);
    }
    CountOfHeld(t, list, (|list| + 3) / 4);
    RecoveredCursor(t, list);
  }

  lemma InOrder(list: seq<FileEntry>)
    requires Plausible(list)
    ensures |list| <= MAX_FILES
  {
  }

  // The loaded table is kept.
  lemma LoadedStart(v: Vol, faults: set<nat>, probe: bool, list: seq<FileEntry>)
    requires Cold(v) && FindsDirectory(v.sectors, faults) && (probe ==> Scanned(v.sectors, faults).ok)
    requires Holds(LoadAll(v.sectors), list) && Plausible(list)
    ensures StoredFiles(v.sectors) == list && Mounted(v, faults, probe).table == LoadAll(v.sectors)
    ensures Mounted(v, faults, probe).writeBlock == StartCursor(v.sectors, faults, probe)
    ensures Inv(Mounted(v, faults, probe), list) <==> EndOfFiles(list) <= StartCursor(v.sectors, faults, probe)
  {
    hide LoadAll, BlockFromImage, Scanned, Mounted, NodeReserve, FirstEmpty, CountTo, RecoveredWriteBlock, Inv, Holds,
         Plausible, StoredFiles, EndOfFiles, DiskHolds, PaddedEntry;
    LoadedFacts(v.sectors, list);
    MountedShape(v, faults, probe);
    ListCounts(v.sectors, list);
    EndOfPlausible(list);
    if list == [] {
      NothingScanned(v.sectors, faults);
    }
    NoReserveForZero();
    CursorInRange(list, ScannedReserve(v.sectors, faults, probe));
    StartInv(Mounted(v, faults, probe), list, ScannedReserve(v.sectors, faults, probe));
  }

  lemma LoadedFacts(sectors: seq<Sector>, list: seq<FileEntry>)
    requires |sectors| >= RESERVED_BLOCKS && HasMagic(sectors) && Holds(LoadAll(sectors), list) && Plausible(list)
    ensures |list| <= MAX_FILES && LoadAll(sectors)[0].magicNumber == MAGIC
    ensures forall k :: 0 <= k < |list| ==> PaddedEntry(list[k])
  {
    hide LoadAll, BlockFromImage, Holds, PaddedEntry;
    LoadKeepsMagic(sectors);
    StoredEntriesArePadded(sectors, list);
  }

  lemma CursorInRange(list: seq<FileEntry>, reserve: nat)
    requires reserve <= 0x400_0001 && EndOfFiles(list) + 0x400_0001 < TWO64
    ensures (EndOfFiles(list) + reserve) % TWO64 == EndOfFiles(list) + reserve
    ensures (RESERVED_BLOCKS + reserve) % TWO64 == RESERVED_BLOCKS + reserve
  {
    hide EndOfFiles;
  }

  lemma NoReserveForZero()
    ensures NodeReserve(0) == 0
  {
  }

  lemma NothingScanned(sectors: seq<Sector>, faults: set<nat>)
    requires |sectors| >= RESERVED_BLOCKS && Holds(LoadAll(sectors), [])
    ensures Scanned(sectors, faults).numBlock == 0
  {
    hide LoadAll, Probe;
    ProbeBehindFiles(LoadAll(sectors), [], sectors, faults, 0, Probed(true, NoNodeBlocks(), 0));
  }

  lemma StartInv(m: Vol, list: seq<FileEntry>, reserve: nat)
    requires Plausible(list) && Holds(m.table, list) && (list != [] ==> m.table[0].magicNumber == MAGIC)
    requires forall k :: 0 <= k < |list| ==> PaddedEntry(list[k])
    requires m.fileNumber == |list| && !m.isOpen && m.totalBytes == m.blocksWritten == 0
    requires |m.nodeList| == MAX_NUM_FILES && |m.sectors| >= RESERVED_BLOCKS && reserve <= 0x400_0001
    requires m.writeBlock == reserve + if |list| <= MAX_RECOVERABLE_FILES then EndOfFiles(list) else RESERVED_BLOCKS
    requires list == [] ==> reserve == 0
    ensures Inv(m, list) <==> EndOfFiles(list) <= m.writeBlock
  {
    EndOfPlausible(list);
    if list != [] {
      assert Placed(list[|list| - 1], |list| - 1);
    }
    hide Holds, PaddedEntry;
  }

  // sinit gives a state of the allocator exactly when the cartridge is one of
  // these, in either configuration; and then with that list.
  lemma StartExactly(v: Vol, faults: set<nat>, probe: bool)
    requires Cold(v)
    ensures (exists files :: Inv(Mounted(v, faults, probe), files)) <==> StartsSound(v.sectors, faults, probe)
    ensures StartsSound(v.sectors, faults, probe) ==>
      Inv(Mounted(v, faults, probe), StartList(v.sectors, faults))
  {
    hide Mounted, LoadAll, BlockFromImage, Scanned, Inv, Holds, Plausible, StoredFiles, EndOfFiles;
    if !FindsDirectory(v.sectors, faults) {
      NoDirectoryStartsEmpty(v, faults, probe);
    } else if probe && !Scanned(v.sectors, faults).ok {
      FailedStart(v, faults);
    } else {
      if Holds(LoadAll(v.sectors), StoredFiles(v.sectors)) && Plausible(StoredFiles(v.sectors)) {
        LoadedStart(v, faults, probe, StoredFiles(v.sectors));
        EndOfPlausible(StoredFiles(v.sectors));
      }
      forall files | Inv(Mounted(v, faults, probe), files) ensures StartsSound(v.sectors, faults, probe) {
        SoundStart(v, faults, probe, files);
      }
    }
  }

  lemma SoundStart(v: Vol, faults: set<nat>, probe: bool, files: seq<FileEntry>)
    requires Cold(v) && FindsDirectory(v.sectors, faults) && (probe ==> Scanned(v.sectors, faults).ok)
    requires Inv(Mounted(v, faults, probe), files)
    ensures StartsSound(v.sectors, faults, probe)
  {
    MountedShape(v, faults, probe);
    InvIsPlausible(Mounted(v, faults, probe), files);
    hide Mounted, LoadAll, BlockFromImage, Scanned, Inv, Holds, Plausible, EndOfFiles;
    LoadedStart(v, faults, probe, files);
  }

  lemma InvIsPlausible(m: Vol, files: seq<FileEntry>)
    requires Inv(m, files)
    ensures Plausible(files) && Holds(m.table, files)
  {
    hide Holds, PaddedEntry;
  }

  // On a cartridge that holds a list, within 32-bit block addresses, the
  // probing loop succeeds when it can read the blocks behind the recordings.
  lemma ScannedOnList(sectors: seq<Sector>, faults: set<nat>, list: seq<FileEntry>)
    requires DiskHolds(sectors, list) && Addressable(list)
    ensures Scanned(sectors, faults).ok <==> Probeable(sectors, faults, list, 0)
    ensures Scanned(sectors, faults).ok ==> ScannedReserve(sectors, faults, true) == Reserve(sectors, list, true)
    ensures ScannedReserve(sectors, faults, false) == Reserve(sectors, list, false)
    ensures |list| <= MAX_NUM_FILES && |Scanned(sectors, faults).nodeList| == MAX_NUM_FILES
    ensures Scanned(sectors, faults).ok ==> forall i :: 0 <= i < |list| && HasNodeFile(sectors, list, i) ==>
      Scanned(sectors, faults).nodeList[i] == End(list[i])
  {
    NoneCounted(sectors, list);
    hide LoadAll, BlockFromImage, Probe, LastCount, NodeReserve, Probeable, HasNodeFile;
    ProbeResult(LoadAll(sectors), list, sectors, faults, 0, Probed(true, NoNodeBlocks(), 0));
  }
}
