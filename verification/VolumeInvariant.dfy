// The allocator invariant of the directory, and that every operation keeps it.
module VolumeInvariant {
  import opened Bytes
  import opened DirectoryFormat
  import opened Directory
  import opened DiskIo
  import opened NodeFile
  import opened Volume

  // The last slot of the table stays unused: recovery cannot cope with it
  // anyway, and without it 64-bit block addresses provably never wrap.
  const MAX_FILES := 511

  // At most this many blocks per file: 2^64 bytes of data, and what is
  // reserved for a node file.
  const NODE_MARGIN := 0x1000_0000
  const PER_FILE := 0x80_0000_0000_0000 + NODE_MARGIN

  ghost predicate Inv(v: Vol, files: seq<FileEntry>) {
    && Holds(v.table, files)
    && |files| == v.fileNumber + (if v.isOpen then 1 else 0)
    && |files| <= MAX_FILES
    && |v.sectors| >= RESERVED_BLOCKS
    && |v.nodeList| == MAX_NUM_FILES
    && (files != [] ==> v.table[0].magicNumber == MAGIC)
    && (forall k :: 0 <= k < |files| ==> PaddedEntry(files[k]) && Placed(files[k], k))
    && Ordered(files)
    && RESERVED_BLOCKS <= v.writeBlock <= RESERVED_BLOCKS + v.fileNumber * PER_FILE
    && (if v.isOpen then OpenEntry(v, files[|files| - 1])
        else EndOfFiles(files) <= v.writeBlock && v.totalBytes == v.blocksWritten == 0)
  }

  // A loose bound on where file k can be, and how large.
  predicate Placed(e: FileEntry, k: nat) {
    e.startAddress <= RESERVED_BLOCKS + k * PER_FILE && e.blockCount <= PER_FILE - NODE_MARGIN
  }

  // The entry of the open file starts at the write cursor and records every
  // byte published so far.
  predicate OpenEntry(v: Vol, e: FileEntry) {
    e.startAddress == v.writeBlock && e.size == v.totalBytes && e.blockCount == Blocks(v.totalBytes)
  }

  // No node files so far: no gaps, and the cursor sits right behind the data.
  ghost predicate NoGaps(v: Vol, files: seq<FileEntry>) {
    Tight(files) && (!v.isOpen ==> v.writeBlock == EndOfFiles(files))
  }

  // While a file is open, the running block count is that of its entry.
  ghost predicate Counted(v: Vol) {
    v.isOpen ==> v.blocksWritten == Blocks(v.totalBytes)
  }

  lemma CursorNeverWraps(v: Vol, files: seq<FileEntry>)
    requires |files| <= MAX_FILES && v.fileNumber <= |files|
    requires v.writeBlock <= RESERVED_BLOCKS + v.fileNumber * PER_FILE
    ensures v.writeBlock + Blocks(v.totalBytes) <= RESERVED_BLOCKS + (v.fileNumber + 1) * PER_FILE
    ensures v.fileNumber < MAX_FILES ==> v.writeBlock + Blocks(v.totalBytes) + NODE_MARGIN < TWO64
  {
  }

  /* ---------- sopen ---------- */

  lemma AppendHeld(table: seq<DirBlock>, files: seq<FileEntry>, t: seq<DirBlock>, e: FileEntry)
    requires Holds(table, files) && |files| < MAX_NUM_FILES && |t| == MAX_STANAG_BLOCKS
    requires var b := |files| / 4;
      t[b].numberOfFileEntries == table[b].numberOfFileEntries + 1
      && t[b].fileEntries == table[b].fileEntries[|files| % 4 := e]
    requires forall j :: 0 <= j < MAX_STANAG_BLOCKS && j != |files| / 4 ==>
      t[j].numberOfFileEntries == table[j].numberOfFileEntries && t[j].fileEntries == table[j].fileEntries
    ensures Holds(t, files + [e])
  {
    var n, more := |files|, files + [e];
    forall k | 0 <= k < n + 1 ensures t[k / 4].fileEntries[k % 4] == more[k] {
      if k < n && k / 4 == n / 4 {
        assert k % 4 != n % 4;
      }
    }
    forall j | 0 <= j < MAX_STANAG_BLOCKS ensures t[j].numberOfFileEntries == Live(n + 1, j) {
    }
  }

  lemma OpenedTableHolds(table: seq<DirBlock>, files: seq<FileEntry>, e: FileEntry)
    requires Holds(table, files) && |files| < MAX_NUM_FILES
    ensures table[|files| / 4].numberOfFileEntries == |files| % 4
    ensures Holds(OpenedTable(table, |files|, e), files + [e])
    ensures OpenedTable(table, |files|, e)[0].magicNumber
         == if |files| == 0 then MAGIC else table[0].magicNumber
  {
    AppendHeld(table, files, OpenedTable(table, |files|, e), e);
  }

  // sopen appends exactly one entry, starting at the write cursor.  The last
  // slot of the table can be opened too, but is not covered by the invariant.
  lemma OpenKeepsInv(v: Vol, files: seq<FileEntry>, name: Text56, date: Text8, time: Text8)
    requires Inv(v, files) && !v.isOpen
    requires IsPadded(name) && IsPadded(date) && IsPadded(time)
    ensures CanOpen(v)
    ensures var w, more := Opened(v, name, date, time), files + [NewEntry(name, v.writeBlock, date, time)];
      && Holds(w.table, more) && Ordered(more) && OpenEntry(w, more[|files|])
      && (Inv(w, more) <==> v.fileNumber < MAX_FILES)
      && (NoGaps(v, files) ==> NoGaps(w, more)) && Counted(w)
  {
    var e := NewEntry(name, v.writeBlock, date, time);
    var w := Opened(v, name, date, time);
    OpenedShape(v, files, name, date, time);
    NewEntryIsPadded(name, v.writeBlock, date, time);
    EndsBeforeCursor(v, files);
    OrderedAppend(files, e);
    hide Opened, Holds, Ordered, PaddedEntry, EndOfFiles, Tight, Inv, IsPadded;
    OpenedInv(v, files, w, e);
  }

  lemma EndsBeforeCursor(v: Vol, files: seq<FileEntry>)
    requires Inv(v, files) && !v.isOpen
    ensures EndOfFiles(files) <= v.writeBlock && Ordered(files) && |files| == v.fileNumber
  {
    hide Holds, PaddedEntry, Placed, Ordered, EndOfFiles;
  }

  lemma OpenedShape(v: Vol, files: seq<FileEntry>, name: Text56, date: Text8, time: Text8)
    requires Inv(v, files) && !v.isOpen
    ensures CanOpen(v)
    ensures var w, e := Opened(v, name, date, time), NewEntry(name, v.writeBlock, date, time);
      && w == v.(table := w.table, isOpen := true, totalBytes := 0, blocksWritten := 0)
      && Holds(w.table, files + [e]) && w.table[0].magicNumber == MAGIC
  {
    OpenedTableHolds(v.table, files, NewEntry(name, v.writeBlock, date, time));
    hide OpenedTable, Ordered, PaddedEntry, Placed;
  }

  lemma OpenedInv(v: Vol, files: seq<FileEntry>, w: Vol, e: FileEntry)
    requires Inv(v, files) && !v.isOpen && Holds(w.table, files + [e]) && w.table[0].magicNumber == MAGIC
    requires w == v.(table := w.table, isOpen := true, totalBytes := 0, blocksWritten := 0)
    requires PaddedEntry(e) && e.startAddress == v.writeBlock && e.size == e.blockCount == 0 && Ordered(files + [e])
    ensures Inv(w, files + [e]) <==> v.fileNumber < MAX_FILES
  {
    var more := files + [e];
    hide Holds, Ordered, PaddedEntry;
    assert forall k :: 0 <= k < |files| ==> more[k] == files[k];
    assert Placed(e, |files|);
  }

  lemma NewEntryIsPadded(name: Text56, start: U64, date: Text8, time: Text8)
    requires IsPadded(name) && IsPadded(date) && IsPadded(time)
    ensures PaddedEntry(NewEntry(name, start, date, time))
  {
    NoNulIsPadded(Fill(7, 0xFF));
    hide IsPadded;
  }

  lemma OrderedAppend(files: seq<FileEntry>, e: FileEntry)
    requires Ordered(files) && EndOfFiles(files) <= e.startAddress
    ensures Ordered(files + [e])
    ensures Tight(files) && EndOfFiles(files) == e.startAddress ==> Tight(files + [e])
  {
    var more := files + [e];
    forall k | 0 <= k < |more| - 1
      ensures End(more[k]) <= more[k + 1].startAddress
      ensures Tight(files) && EndOfFiles(files) == e.startAddress ==> End(more[k]) == more[k + 1].startAddress
    {
      assert more[k] == files[k];
    }
  }

  /* ---------- UpdateStanag ---------- */

  function LastReplaced(files: seq<FileEntry>, e: FileEntry): seq<FileEntry>
    requires files != []
  {
    files[..|files| - 1] + [e]
  }

  lemma ReplaceHeld(table: seq<DirBlock>, files: seq<FileEntry>, t: seq<DirBlock>, e: FileEntry)
    requires Holds(table, files) && files != [] && |t| == MAX_STANAG_BLOCKS
    requires var b := (|files| - 1) / 4;
      t[b].numberOfFileEntries == table[b].numberOfFileEntries
      && t[b].fileEntries == table[b].fileEntries[(|files| - 1) % 4 := e]
    requires forall j :: 0 <= j < MAX_STANAG_BLOCKS && j != (|files| - 1) / 4 ==>
      t[j].numberOfFileEntries == table[j].numberOfFileEntries && t[j].fileEntries == table[j].fileEntries
    ensures Holds(t, LastReplaced(files, e))
  {
    var n, changed := |files| - 1, LastReplaced(files, e);
    forall k | 0 <= k < n + 1 ensures t[k / 4].fileEntries[k % 4] == changed[k] {
      if k < n && k / 4 == n / 4 {
        assert k % 4 != n % 4;
      }
    }
  }

  // The entry of the open file after an update.
  function Published(files: seq<FileEntry>, total: U64, time: Text8): seq<FileEntry>
    requires files != []
  {
    LastReplaced(files, UpdatedEntry(files[|files| - 1], total, time))
  }

  lemma UpdatedTableHolds(table: seq<DirBlock>, files: seq<FileEntry>, total: U64, time: Text8)
    requires Holds(table, files) && files != []
    ensures table[(|files| - 1) / 4].numberOfFileEntries == (|files| - 1) % 4 + 1
    ensures Holds(UpdatedTable(table, |files| - 1, total, time), Published(files, total, time))
    ensures UpdatedTable(table, |files| - 1, total, time)[0].magicNumber == table[0].magicNumber
  {
    var n := |files| - 1;
    ReplaceHeld(table, files, UpdatedTable(table, n, total, time), UpdatedEntry(files[n], total, time));
  }

  // An update changes nothing but size, block count and close time of the
  // open file's entry, whether or not the cartridge could be written.
  lemma UpdateKeepsInv(v: Vol, files: seq<FileEntry>, total: U64, time: Text8, connected: bool)
    requires Inv(v, files) && v.isOpen && IsPadded(time)
    ensures CanUpdate(v.(totalBytes := total))
    ensures Inv(Updated(v.(totalBytes := total), time, connected), Published(files, total, time))
    ensures NoGaps(v, files) ==>
      NoGaps(Updated(v.(totalBytes := total), time, connected), Published(files, total, time))
  {
    hide StoreBlock;
    var n, published := |files| - 1, Published(files, total, time);
    UpdatedTableHolds(v.table, files, total, time);
    PublishedEntries(files, total, time);
    hide UpdatedTable, Holds, StoredCurrent, PaddedEntry, Placed, Published, Ordered, Tight, EndOfFiles;
  }

  // Publishing replaces the last entry by one that starts where it did.
  lemma PublishedEntries(files: seq<FileEntry>, total: U64, time: Text8)
    requires files != [] && Ordered(files) && IsPadded(time) && |files| <= MAX_FILES
    requires forall k :: 0 <= k < |files| ==> PaddedEntry(files[k]) && Placed(files[k], k)
    ensures var n, published := |files| - 1, Published(files, total, time);
      && |published| == |files| && published[n] == UpdatedEntry(files[n], total, time)
      && (forall k :: 0 <= k < |files| ==> PaddedEntry(published[k]) && Placed(published[k], k))
      && Ordered(published) && (Tight(files) ==> Tight(published))
  {
    var n, published := |files| - 1, Published(files, total, time);
    assert PaddedEntry(files[n]) && Placed(files[n], n);
    OrderedReplace(files, UpdatedEntry(files[n], total, time));
    hide Ordered, Tight;
    assert PaddedEntry(published[n]) && Placed(published[n], n);
    assert forall k :: 0 <= k < n ==> published[k] == files[k];
  }

  lemma OrderedReplace(files: seq<FileEntry>, e: FileEntry)
    requires Ordered(files) && files != [] && e.startAddress == files[|files| - 1].startAddress
    ensures Ordered(LastReplaced(files, e))
    ensures Tight(files) ==> Tight(LastReplaced(files, e))
  {
    var n, changed := |files| - 1, LastReplaced(files, e);
    forall k | 0 <= k < n
      ensures End(changed[k]) <= changed[k + 1].startAddress
      ensures Tight(files) ==> End(changed[k]) == changed[k + 1].startAddress
    {
      assert changed[k] == files[k];
    }
    assert n > 0 ==> changed[0] == files[0];
  }

  // UpdateStanagBlocks publishes offset + length bytes; the running block
  // count follows unless the sum is zero.
  lemma UpdateBlocksKeepsInv(v: Vol, files: seq<FileEntry>, offset: U64, pktLen: int, connected: bool, time: Text8)
    requires Inv(v, files) && v.isOpen && IsPadded(time)
    ensures CanUpdate(v)
    ensures Inv(UpdatedBlocks(v, offset, pktLen, true, connected, time),
                Published(files, (offset + pktLen) % TWO64, time))
    ensures Counted(UpdatedBlocks(v, offset, pktLen, true, connected, time))
       <==> ((offset + pktLen) % TWO64 != 0 || v.blocksWritten == 0)
  {
    UpdateKeepsInv(v, files, (offset + pktLen) % TWO64, time, connected);
  }

  lemma UpdateAllKeepsInv(v: Vol, files: seq<FileEntry>, blocksRecorded: U32, connected: bool, time: Text8)
    requires Inv(v, files) && v.isOpen && IsPadded(time)
    ensures CanUpdate(v)
    ensures Inv(UpdatedAll(v, blocksRecorded, true, connected, time), Published(files, blocksRecorded * 512, time))
    ensures Counted(UpdatedAll(v, blocksRecorded, true, connected, time))
  {
    UpdateKeepsInv(v, files, blocksRecorded * 512, time, connected);
  }

  /* ---------- closing ---------- */

  lemma BlankedTableHolds(table: seq<DirBlock>, files: seq<FileEntry>)
    requires Holds(table, files) && files != []
    ensures Holds(BlankedTable(table, |files| - 1), files)
    ensures BlankedTable(table, |files| - 1)[0].magicNumber == table[0].magicNumber
  {
    var n, t := |files| - 1, BlankedTable(table, |files| - 1);
    assert table[n / 4].numberOfFileEntries == n % 4 + 1;
    forall k | 0 <= k < |files| ensures t[k / 4].fileEntries[k % 4] == files[k] {
    }
  }

  // Moving the cursor behind the open file and marking it closed.
  function CloseAt(v: Vol, index: nat): Vol
    requires v.writeBlock + Blocks(v.totalBytes) < TWO64
  {
    v.(isOpen := false, fileNumber := v.fileNumber + 1, fileIndex := index,
       writeBlock := v.writeBlock + Blocks(v.totalBytes), totalBytes := 0, blocksWritten := 0)
  }

  lemma CloseAtKeepsInv(v: Vol, files: seq<FileEntry>, index: nat)
    requires Inv(v, files) && v.isOpen
    ensures v.writeBlock + Blocks(v.totalBytes) < TWO64
    ensures Inv(CloseAt(v, index), files) && CloseAt(v, index).writeBlock == EndOfFiles(files)
    ensures NoGaps(v, files) ==> NoGaps(CloseAt(v, index), files)
  {
    CursorNeverWraps(v, files);
  }

  lemma BlankedKeepsInv(v: Vol, files: seq<FileEntry>)
    requires Inv(v, files) && v.isOpen
    ensures var blanked := v.(table := BlankedTable(v.table, v.fileNumber));
      Inv(blanked, files) && (NoGaps(v, files) ==> NoGaps(blanked, files))
  {
    BlankedTableHolds(v.table, files);
    hide BlankedTable, Holds, PaddedEntry, Ordered, Tight, Blocks;
  }

  lemma OpenFileBound(v: Vol, files: seq<FileEntry>)
    requires Inv(v, files) && v.isOpen
    ensures |v.table| == MAX_STANAG_BLOCKS && v.fileNumber < MAX_FILES
    ensures v.writeBlock + Blocks(v.totalBytes) <= RESERVED_BLOCKS + (v.fileNumber + 1) * PER_FILE - NODE_MARGIN
  {
    assert Placed(files[|files| - 1], |files| - 1);
    hide Holds, PaddedEntry, Ordered, Blocks;
  }

  // Emergency_Close keeps every entry and moves the cursor behind the file.
  lemma EmergencyCloseKeepsInv(v: Vol, files: seq<FileEntry>, increment: bool)
    requires Inv(v, files) && v.isOpen
    ensures Inv(EmergencyClosed(v, increment), files)
    ensures EmergencyClosed(v, increment).writeBlock == EndOfFiles(files)
    ensures EmergencyClosed(v, increment).writeBlock <= RESERVED_BLOCKS + (v.fileNumber + 1) * PER_FILE - NODE_MARGIN
    ensures NoGaps(v, files) ==> NoGaps(EmergencyClosed(v, increment), files)
  {
    OpenFileBound(v, files);
    BlankedKeepsInv(v, files);
    hide Inv, NoGaps, EndOfFiles, BlankedTable, Blocks;
    var blanked := v.(table := BlankedTable(v.table, v.fileNumber));
    var index := if increment then v.fileIndex + 1 else v.fileIndex;
    CloseAtKeepsInv(blanked, files, index);
    assert EmergencyClosed(v, increment) == CloseAt(blanked, index);
  }

  // Emergency_Close moves the blocks of the open file from the running count
  // into the cursor: the figure sdisk reports does not change.
  lemma EmergencyCloseConservesSpace(v: Vol, files: seq<FileEntry>, increment: bool)
    requires Inv(v, files) && v.isOpen
    ensures var c := EmergencyClosed(v, increment);
      c.writeBlock + c.blocksWritten == v.writeBlock + v.blocksWritten <==> Counted(v)
  {
    CursorNeverWraps(v, files);
  }

  // The state sclose is in before it moves the cursor.
  lemma ClosingState(v: Vol, files: seq<FileEntry>, total: U64, connected: bool, time: Text8)
    requires Inv(v, files) && v.isOpen && IsPadded(time)
    ensures CanUpdate(v)
    ensures Inv(Updated(v.(table := BlankedTable(v.table, v.fileNumber), totalBytes := total), time, connected),
                Published(files, total, time))
  {
    BlankedTableHolds(v.table, files);
    var blanked := v.(table := BlankedTable(v.table, v.fileNumber));
    assert Inv(blanked, files);
    UpdateKeepsInv(blanked, files, total, time, connected);
  }

  // sclose keeps the invariant when the directory could be written and the
  // block count fits the int that UpdateStanag returns.
  lemma SCloseKeepsInv(v: Vol, files: seq<FileEntry>, increment: bool, fill: nat, btmFill: U32,
                       blocksRecorded: U32, time: Text8)
    requires Inv(v, files) && v.isOpen && IsPadded(time)
    requires Blocks(ClosingBytes(v.totalBytes, fill, btmFill, blocksRecorded)) < 0x8000_0000
    ensures CanUpdate(v)
    ensures Inv(SClosed(v, increment, fill, btmFill, blocksRecorded, true, time),
                Published(files, ClosingBytes(v.totalBytes, fill, btmFill, blocksRecorded), time))
  {
    assert files != [];
    hide StoreBlock, UpdatedTable, BlankedTable, Published, ClosingBytes, Blocks, Inv, SClosed;
    var total := ClosingBytes(v.totalBytes, fill, btmFill, blocksRecorded);
    ClosingState(v, files, total, true, time);
    var u := Updated(v.(table := BlankedTable(v.table, v.fileNumber), totalBytes := total), time, true);
    var index := if increment then v.fileIndex + 1 else v.fileIndex;
    CloseAtKeepsInv(u, Published(files, total, time), index);
    SClosedIsCloseAt(v, increment, fill, btmFill, blocksRecorded, time);
  }

  lemma SClosedIsCloseAt(v: Vol, increment: bool, fill: nat, btmFill: U32, blocksRecorded: U32, time: Text8)
    requires CanUpdate(v)
    requires Blocks(ClosingBytes(v.totalBytes, fill, btmFill, blocksRecorded)) < 0x8000_0000
    requires v.writeBlock + Blocks(ClosingBytes(v.totalBytes, fill, btmFill, blocksRecorded)) < TWO64
    ensures var total := ClosingBytes(v.totalBytes, fill, btmFill, blocksRecorded);
      SClosed(v, increment, fill, btmFill, blocksRecorded, true, time)
      == CloseAt(Updated(v.(table := BlankedTable(v.table, v.fileNumber), totalBytes := total), time, true),
                 if increment then v.fileIndex + 1 else v.fileIndex)
  {
    hide StoreBlock, UpdatedTable, ClosingBytes, BlankedTable, Blocks;
    SmallInt32(Blocks(ClosingBytes(v.totalBytes, fill, btmFill, blocksRecorded)));
    hide Int32;
  }

  lemma SmallInt32(b: U64)
    requires b < 0x8000_0000
    ensures Int32(b) == b
  {
  }

  // Otherwise the cursor ends up somewhere else than behind the file.
  lemma SCloseCursor(v: Vol, files: seq<FileEntry>, increment: bool, fill: nat, btmFill: U32,
                     blocksRecorded: U32, connected: bool, time: Text8)
    requires Inv(v, files) && v.isOpen && IsPadded(time)
    ensures CanUpdate(v)
    ensures var total := ClosingBytes(v.totalBytes, fill, btmFill, blocksRecorded);
      SClosed(v, increment, fill, btmFill, blocksRecorded, connected, time).writeBlock
        == EndOfFiles(Published(files, total, time))
      <==> connected && Blocks(total) < 0x8000_0000
  {
    hide StoreBlock;
    var total := ClosingBytes(v.totalBytes, fill, btmFill, blocksRecorded);
    UpdatedTableHolds(v.table, files, total, time);
    CursorNeverWraps(v.(totalBytes := total), files);
    assert EndOfFiles(Published(files, total, time)) == v.writeBlock + Blocks(total);
    hide Inv, UpdatedTable, BlankedTable, StoredCurrent, Published, EndOfFiles, ClosingBytes, Blocks, Int32;
    ReturnedBlocks(v.writeBlock, Blocks(total), if connected then Int32(Blocks(total)) else -1, connected);
  }

  lemma ReturnedBlocks(w: U64, b: U64, status: int, connected: bool)
    requires w + b < TWO64 && b <= 0x80_0000_0000_0000
    requires status == if connected then Int32(b) else -1
    ensures (w + status) % TWO64 == w + b <==> connected && b < 0x8000_0000
  {
  }

  /* ---------- node files ---------- */

  lemma {:induction false} NodeSectorsBeyond(sectors: seq<Sector>, a: nat, nodes: seq<Node>, stale: Stale,
                                             k: nat, i: nat)
    requires Fits(|nodes|) && k <= NodeFileBlocks(|nodes|) && i < |sectors|
    ensures NodeSectors(sectors, a, nodes, stale, k)[i]
         == if a <= i < a + k then ImageSector(nodes, stale, i - a) else sectors[i]
  {
    hide FileImage;
    if k > 0 {
      NodeSectorsBeyond(sectors, a, nodes, stale, k - 1, i);
    }
  }

  lemma {:induction false} NodeSectorsStored(sectors: seq<Sector>, a: nat, nodes: seq<Node>, stale: Stale)
    requires Fits(|nodes|)
    ensures var r := NodeSectors(WriteAt(sectors, a, DEAD_SECTOR), a, nodes, stale, NodeFileBlocks(|nodes|));
      && (forall i :: 0 <= i < |sectors| && i < a ==> r[i] == sectors[i])
      && (a + NodeFileBlocks(|nodes|) <= |sectors| ==> StoredAt(r, a, nodes))
  {
    var b := NodeFileBlocks(|nodes|);
    var r := NodeSectors(WriteAt(sectors, a, DEAD_SECTOR), a, nodes, stale, b);
    hide ImageSector, NodeSectors, StoredAt;
    forall i | 0 <= i < |sectors|
      ensures r[i] == if a <= i < a + b then ImageSector(nodes, stale, i - a) else WriteAt(sectors, a, DEAD_SECTOR)[i]
    {
      NodeSectorsBeyond(WriteAt(sectors, a, DEAD_SECTOR), a, nodes, stale, b, i);
    }
    if a + b <= |sectors| {
      ImageIsStored(r, a, nodes, stale);
    }
  }

  // Writing a node file moves the cursor past it, touches no file entry and
  // no block below the old cursor, and leaves the node file readable there.
  lemma NodesKeepInv(v: Vol, files: seq<FileEntry>, nodes: seq<Node>, stale: Stale, connected: bool)
    requires Inv(v, files) && !v.isOpen && files != [] && Fits(|nodes|)
    requires v.writeBlock <= RESERVED_BLOCKS + v.fileNumber * PER_FILE - NODE_BUFFER_BLOCKS - 1
    ensures var w, blocks := NodesWritten(v, nodes, stale, connected), NodeFileBlocks(|nodes|);
      && Inv(w, files) && w.nodeList == v.nodeList[v.fileNumber - 1 := v.writeBlock]
      && w.writeBlock == v.writeBlock + (if connected then blocks + 1 else 0)
      && (forall i :: 0 <= i < |v.sectors| && i < v.writeBlock ==> w.sectors[i] == v.sectors[i])
      && (connected && v.writeBlock + blocks <= |v.sectors| ==> StoredAt(w.sectors, v.writeBlock, nodes))
  {
    NodeSectorsStored(v.sectors, v.writeBlock, nodes, stale);
    CursorNeverWraps(v, files);
    NodesMoveCursor(v, nodes);
    hide NodeSectors, StoredAt, Blocks, NodeFileBlocks, PaddedEntry, Holds, Ordered, Placed;
  }

  // As long as the file ends within the cleared blocks, what the buffer held
  // before does not matter.
  lemma {:induction false} SameNodeSectors(sectors: seq<Sector>, a: nat, nodes: seq<Node>, stale: Stale, other: Stale,
                                           k: nat)
    requires k <= NodeFileBlocks(|nodes|) <= MAX_NODE_BLOCKS
    ensures NodeSectors(sectors, a, nodes, stale, k) == NodeSectors(sectors, a, nodes, other, k)
  {
    hide FileImage;
    if k > 0 {
      SameImage(nodes, stale, other);
      SameNodeSectors(sectors, a, nodes, stale, other, k - 1);
    }
  }

  lemma NodesMoveCursor(v: Vol, nodes: seq<Node>)
    requires Fits(|nodes|) && v.totalBytes == 0 && v.writeBlock + NODE_BUFFER_BLOCKS + 1 < TWO64
    ensures (v.totalBytes + 512 * (1 + NodeFileBlocks(|nodes|))) % TWO64 == 512 * (1 + NodeFileBlocks(|nodes|))
    ensures (v.writeBlock + Blocks(512 * (1 + NodeFileBlocks(|nodes|)))) % TWO64
         == v.writeBlock + NodeFileBlocks(|nodes|) + 1
    ensures (v.writeBlock + Blocks(v.totalBytes % TWO64)) % TWO64 == v.writeBlock
    ensures NodeFileBlocks(|nodes|) <= NODE_BUFFER_BLOCKS
  {
    var b := NodeFileBlocks(|nodes|);
    assert b <= NODE_BUFFER_BLOCKS;
    WholeBlocks(1 + b);
    WholeBlocks(0);
    hide Blocks;
  }

  lemma WholeBlocks(b: nat)
    requires b <= 0x80_0000_0000_0000 - 1
    ensures Blocks(512 * b) == b
  {
  }

  /* ---------- recorded data ---------- */

  // The hardware writes recorded data at or behind the write cursor.
  function Captured(v: Vol, a: nat, s: Sector): Vol {
    v.(sectors := WriteAt(v.sectors, a, s))
  }

  /* ---------- erase ---------- */

  lemma EraseKeepsInv(v: Vol, files: seq<FileEntry>, eraseOk: bool)
    requires Inv(v, files) && !v.isOpen
    ensures Inv(Erased(v, eraseOk), []) && NoGaps(Erased(v, eraseOk), [])
  {
    InitTableHoldsNothing();
  }

  // The TMATS-keeping erase leaves exactly the first file, moved to the first
  // data block, and the cursor behind it.
  lemma TmatsEraseKeepsInv(v: Vol, files: seq<FileEntry>)
    requires Inv(v, files) && !v.isOpen && files != []
    ensures Inv(TmatsErased(v), [files[0].(startAddress := RESERVED_BLOCKS)])
    ensures NoGaps(TmatsErased(v), [files[0].(startAddress := RESERVED_BLOCKS)])
  {
    hide StoreBlock;
    TmatsTableHoldsOneFile(v.table, files);
    var kept := files[0].(startAddress := RESERVED_BLOCKS);
    assert TmatsTable(v.table)[0 / 4].fileEntries[0 % 4] == [kept][0];
    assert PaddedEntry(files[0]);
    OneFileInv(TmatsErased(v), kept);
  }

  lemma OneFileInv(w: Vol, e: FileEntry)
    requires Holds(w.table, [e]) && w.fileNumber == 1 && !w.isOpen && w.totalBytes == w.blocksWritten == 0
    requires |w.sectors| >= RESERVED_BLOCKS && |w.nodeList| == MAX_NUM_FILES
    requires w.table[0].magicNumber == MAGIC
    requires PaddedEntry(e) && Placed(e, 0) && e.startAddress == RESERVED_BLOCKS
    requires w.writeBlock == End(e)
    ensures Inv(w, [e]) && NoGaps(w, [e])
  {
  }
}
