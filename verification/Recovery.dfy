// What survives on the cartridge, and what sinit makes of it after a loss of
// power.
module Recovery {
  import opened DirectoryFormat
  import opened Directory
  import opened DiskIo
  import opened Volume

  // The directory on the cartridge stands for the file sequence stored.
  ghost predicate DiskHolds(sectors: seq<Sector>, stored: seq<FileEntry>) {
    && |sectors| >= RESERVED_BLOCKS
    && Holds(LoadAll(sectors), stored)
    && (stored != [] ==> BlockFromImage(sectors[1]).magicNumber == MAGIC)
  }

  // The file sequence on the cartridge.
  function StoredFiles(sectors: seq<Sector>): seq<FileEntry>
    requires |sectors| >= RESERVED_BLOCKS
  {
    FilesOf(LoadAll(sectors))
  }

  lemma DiskHoldsOneSequence(sectors: seq<Sector>, stored: seq<FileEntry>)
    requires DiskHolds(sectors, stored)
    ensures StoredFiles(sectors) == stored
  {
    HeldFilesAreScanned(LoadAll(sectors), stored);
  }

  /* ---------- writing directory blocks ---------- */

  lemma LoadsAfterWrite(sectors: seq<Sector>, j: nat, s: Sector)
    requires |sectors| >= RESERVED_BLOCKS && j < MAX_STANAG_BLOCKS
    ensures LoadAll(WriteAt(sectors, SYSTEM_RESERVE_BLOCKS + j, s)) == LoadAll(sectors)[j := LoadBlock(s)]
  {
    hide LoadBlock;
  }

  // Blocks of recorded data or of node files are not part of the directory.
  lemma LoadsDespiteData(sectors: seq<Sector>, others: seq<Sector>)
    requires |sectors| == |others| >= RESERVED_BLOCKS
    requires forall i :: 0 <= i < RESERVED_BLOCKS ==> sectors[i] == others[i]
    ensures LoadAll(sectors) == LoadAll(others)
    ensures forall stored :: DiskHolds(sectors, stored) ==> DiskHolds(others, stored)
  {
    hide LoadBlock;
    assert LoadAll(sectors) == LoadAll(others);
  }

  // How many leading entries of the cartridge's list are up to date.
  function UpToDate(stored: seq<FileEntry>, files: seq<FileEntry>): (u: nat)
    ensures u <= |stored| && u <= |files|
    ensures forall k :: 0 <= k < u ==> stored[k] == files[k]
    ensures u < |stored| && u < |files| ==> stored[u] != files[u]
  {
    UpToDateFrom(stored, files, 0)
  }

  function UpToDateFrom(stored: seq<FileEntry>, files: seq<FileEntry>, i: nat): (u: nat)
    requires i <= |stored| && i <= |files|
    ensures i <= u <= |stored| && u <= |files|
    ensures forall k :: i <= k < u ==> stored[k] == files[k]
    ensures u < |stored| && u < |files| ==> stored[u] != files[u]
    decreases |stored| - i
  {
    if i == |stored| || i == |files| || stored[i] != files[i] then i
    else UpToDateFrom(stored, files, i + 1)
  }

  lemma UpToDateAtLeast(stored: seq<FileEntry>, files: seq<FileEntry>, k: int)
    requires k <= |stored| && k <= |files|
    requires forall i :: 0 <= i < k ==> stored[i] == files[i]
    ensures UpToDate(stored, files) >= k
  {
  }

  // A block of the table, written and read back, shows its live entries.
  lemma LiveEntriesSurvive(table: seq<DirBlock>, files: seq<FileEntry>, j: nat)
    requires Holds(table, files) && j < MAX_STANAG_BLOCKS
    requires forall k :: 0 <= k < |files| ==> PaddedEntry(files[k])
    ensures Shows(LoadBlock(StoreBlock(table[j])), files, j)
    ensures LoadBlock(StoreBlock(table[j])).forwardLink == table[j].forwardLink
    ensures LoadBlock(StoreBlock(table[j])).reverseLink == table[j].reverseLink
  {
    LoadsWhatWasStored(table[j]);
    hide StoreBlock, LoadBlock;
    ShowsEveryBlock(table, files);
    assert Shows(table[j], files, j);
  }

  // The loaded directory after the first, or after both, block writes.
  lemma LoadsAfterStore(sectors: seq<Sector>, table: seq<DirBlock>, b: nat)
    requires |sectors| >= RESERVED_BLOCKS && |table| == MAX_STANAG_BLOCKS && b < MAX_STANAG_BLOCKS
    ensures b > 0 ==> LoadAll(StoredPrevious(sectors, table, b))[b - 1] == LoadBlock(StoreBlock(table[b - 1]))
    ensures forall j :: 0 <= j < MAX_STANAG_BLOCKS && j != b - 1 ==>
      LoadAll(StoredPrevious(sectors, table, b))[j] == LoadAll(sectors)[j]
    ensures b > 0 ==> LoadAll(StoredCurrent(sectors, table, b))[b - 1] == LoadBlock(StoreBlock(table[b - 1]))
    ensures LoadAll(StoredCurrent(sectors, table, b))[b] == LoadBlock(StoreBlock(table[b]))
    ensures forall j :: 0 <= j < MAX_STANAG_BLOCKS && j != b - 1 && j != b ==>
      LoadAll(StoredCurrent(sectors, table, b))[j] == LoadAll(sectors)[j]
  {
    hide StoreBlock, LoadBlock;
    if b > 0 {
      LoadsAfterWrite(sectors, b - 1, StoreBlock(table[b - 1]));
    }
    LoadsAfterWrite(StoredPrevious(sectors, table, b), b, StoreBlock(table[b]));
  }

  // The magic number of the directory after a write-back.
  lemma MagicSurvives(sectors: seq<Sector>, table: seq<DirBlock>, b: nat, stored: seq<FileEntry>)
    requires DiskHolds(sectors, stored) && |table| == MAX_STANAG_BLOCKS && b < MAX_STANAG_BLOCKS
    requires table[0].magicNumber == MAGIC
    requires b <= 1 || stored != []
    ensures BlockFromImage(StoredCurrent(sectors, table, b)[1]).magicNumber == MAGIC
    ensures b == 1 || stored != [] ==> BlockFromImage(StoredPrevious(sectors, table, b)[1]).magicNumber == MAGIC
  {
    hide StoreBlock, LoadBlock, LoadAll, Holds, BlockFromImage;
    LoadsWhatWasStored(table[0]);
    hide DiskHolds;
    FirstSector(sectors, table, b);
  }

  lemma FirstSector(sectors: seq<Sector>, table: seq<DirBlock>, b: nat)
    requires |sectors| >= RESERVED_BLOCKS && |table| == MAX_STANAG_BLOCKS && b < MAX_STANAG_BLOCKS
    ensures StoredCurrent(sectors, table, b)[1] == if b <= 1 then StoreBlock(table[0]) else sectors[1]
    ensures StoredPrevious(sectors, table, b)[1] == if b == 1 then StoreBlock(table[0]) else sectors[1]
  {
    hide StoreBlock;
  }

  // The last of the files lies in block b.
  predicate LastIn(files: seq<FileEntry>, b: nat) {
    4 * b < |files| <= 4 * b + 4 && b < MAX_STANAG_BLOCKS
  }

  // Everything an update needs to know about the table in memory.
  ghost predicate Writable(table: seq<DirBlock>, files: seq<FileEntry>) {
    && Holds(table, files) && files != [] && table[0].magicNumber == MAGIC
    && forall k :: 0 <= k < |files| ==> PaddedEntry(files[k])
  }

  // Although UpdateStanag writes only the current block b and the one before
  // it, the cartridge then holds the whole directory - exactly when the first
  // outdated entry lies in one of these two blocks or later.
  lemma TwoBlockWriteBack(sectors: seq<Sector>, table: seq<DirBlock>, files: seq<FileEntry>, stored: seq<FileEntry>,
                          b: nat)
    requires Writable(table, files) && LastIn(files, b)
    requires DiskHolds(sectors, stored) && |stored| <= |files|
    ensures DiskHolds(StoredCurrent(sectors, table, b), files) <==> 4 * (b - 1) <= UpToDate(stored, files)
  {
    hide StoreBlock, StoredCurrent, DiskHolds;
    if 4 * (b - 1) <= UpToDate(stored, files) {
      WriteBackComplete(sectors, table, files, stored, b);
    } else {
      WriteBackIncomplete(sectors, table, files, stored, b);
    }
  }

  // Blocks up to the first outdated entry, and blocks behind the last one,
  // need not be written.
  lemma UntouchedBlockShows(block: DirBlock, stored: seq<FileEntry>, files: seq<FileEntry>, j: nat)
    requires Shows(block, stored, j)
    requires 4 * j + 4 <= UpToDate(stored, files) || (|stored| <= 4 * j && |files| <= 4 * j)
    ensures Shows(block, files, j)
  {
    forall i | 0 <= i < Live(|files|, j) ensures block.fileEntries[i] == files[4 * j + i] {
      assert stored[4 * j + i] == files[4 * j + i];
    }
  }

  // After the two writes blocks b - 1 and b show the new list, all others
  // still the old one.
  lemma BlocksAfterStore(sectors: seq<Sector>, table: seq<DirBlock>, files: seq<FileEntry>, stored: seq<FileEntry>,
                         b: nat)
    requires Writable(table, files) && b < MAX_STANAG_BLOCKS && DiskHolds(sectors, stored)
    ensures forall j :: 0 <= j < MAX_STANAG_BLOCKS ==>
      Shows(LoadAll(StoredCurrent(sectors, table, b))[j], if b - 1 <= j <= b then files else stored, j)
    ensures b > 0 ==> forall j :: 0 <= j < MAX_STANAG_BLOCKS ==>
      Shows(LoadAll(StoredPrevious(sectors, table, b))[j], if j == b - 1 then files else stored, j)
  {
    hide StoreBlock, StoredCurrent, StoredPrevious, LoadAll, LoadBlock, BlockFromImage, Shows, PaddedEntry;
    ShowsEveryBlock(LoadAll(sectors), stored);
    LoadsAfterStore(sectors, table, b);
    LiveEntriesSurvive(table, files, b);
    if b > 0 {
      LiveEntriesSurvive(table, files, b - 1);
    }
  }

  // Only blocks b - 1 and b are replaced, by blocks that show files.
  lemma MergedBlocksShow(e: seq<DirBlock>, files: seq<FileEntry>, stored: seq<FileEntry>, b: nat)
    requires |e| == MAX_STANAG_BLOCKS && LastIn(files, b) && |stored| <= |files|
    requires forall j :: 0 <= j < MAX_STANAG_BLOCKS ==> Shows(e[j], if b - 1 <= j <= b then files else stored, j)
    requires 4 * (b - 1) <= UpToDate(stored, files)
    ensures forall j :: 0 <= j < MAX_STANAG_BLOCKS ==> Shows(e[j], files, j)
  {
    hide Shows;
    forall j | 0 <= j < MAX_STANAG_BLOCKS ensures Shows(e[j], files, j) {
      if j != b && j != b - 1 {
        assert Shows(e[j], stored, j);
        UntouchedBlockShows(e[j], stored, files, j);
      }
    }
  }

  lemma WriteBackComplete(sectors: seq<Sector>, table: seq<DirBlock>, files: seq<FileEntry>, stored: seq<FileEntry>,
                          b: nat)
    requires Writable(table, files) && LastIn(files, b)
    requires DiskHolds(sectors, stored) && |stored| <= |files|
    requires 4 * (b - 1) <= UpToDate(stored, files)
    ensures DiskHolds(StoredCurrent(sectors, table, b), files)
  {
    assert |table| == MAX_STANAG_BLOCKS && |files| <= MAX_NUM_FILES;
    hide StoreBlock, StoredCurrent, StoredPrevious, LoadAll, LoadBlock, BlockFromImage, Shows, Holds, PaddedEntry;
    MagicSurvives(sectors, table, b, stored);
    BlocksAfterStore(sectors, table, files, stored, b);
    hide UpToDate, Writable;
    var e := LoadAll(StoredCurrent(sectors, table, b));
    MergedBlocksShow(e, files, stored, b);
    HoldsBlockwise(e, files);
  }

  lemma WriteBackIncomplete(sectors: seq<Sector>, table: seq<DirBlock>, files: seq<FileEntry>, stored: seq<FileEntry>,
                            b: nat)
    requires Writable(table, files) && LastIn(files, b)
    requires DiskHolds(sectors, stored)
    requires 4 * (b - 1) > UpToDate(stored, files)
    ensures !DiskHolds(StoredCurrent(sectors, table, b), files)
  {
    assert |table| == MAX_STANAG_BLOCKS && |files| <= MAX_NUM_FILES;
    hide StoreBlock, StoredCurrent, StoredPrevious, LoadAll, LoadBlock, BlockFromImage, Holds, PaddedEntry, Shows;
    var u := UpToDate(stored, files);
    var e := LoadAll(StoredCurrent(sectors, table, b));
    BlocksAfterStore(sectors, table, files, stored, b);
    assert Shows(e[u / 4], stored, u / 4);
    if Holds(e, files) {
      ShowsEveryBlock(e, files);
      SameBlockSameFile(e[u / 4], stored, files, u);
    }
  }

  lemma SameBlockSameFile(block: DirBlock, stored: seq<FileEntry>, files: seq<FileEntry>, k: nat)
    requires Shows(block, stored, k / 4) && Shows(block, files, k / 4)
    requires |files| >= 4 * (k / 4) + 4
    ensures k < |stored| && k < |files| && stored[k] == files[k]
  {
    assert block.fileEntries[k % 4] == stored[4 * (k / 4) + k % 4];
  }

  // The list a crash between the two block writes leaves behind: blocks
  // before the current one show the new list, the current one the old list.
  function Mixed(stored: seq<FileEntry>, files: seq<FileEntry>, b: nat): seq<FileEntry>
    requires LastIn(files, b)
  {
    if |stored| >= 4 * b then files[..4 * b] + stored[4 * b..] else files[..4 * b]
  }

  lemma CrashBetweenWrites(sectors: seq<Sector>, table: seq<DirBlock>, files: seq<FileEntry>, stored: seq<FileEntry>,
                           b: nat)
    requires Writable(table, files) && LastIn(files, b)
    requires DiskHolds(sectors, stored) && |stored| <= |files|
    requires 4 * (b - 1) <= UpToDate(stored, files)
    ensures DiskHolds(StoredPrevious(sectors, table, b), Mixed(stored, files, b))
  {
    var mixed := Mixed(stored, files, b);
    if b == 0 {
      assert mixed == stored;
    } else {
      assert |table| == MAX_STANAG_BLOCKS && |mixed| <= MAX_NUM_FILES;
      hide StoreBlock, StoredCurrent, StoredPrevious, LoadAll, LoadBlock, BlockFromImage, Shows, Holds, PaddedEntry;
      MagicSurvives(sectors, table, b, stored);
      BlocksAfterStore(sectors, table, files, stored, b);
      hide UpToDate, Writable;
      var e := LoadAll(StoredPrevious(sectors, table, b));
      MixedBlocksShow(e, files, stored, b);
      HoldsBlockwise(e, mixed);
    }
  }

  lemma MixedBlocksShow(e: seq<DirBlock>, files: seq<FileEntry>, stored: seq<FileEntry>, b: nat)
    requires |e| == MAX_STANAG_BLOCKS && LastIn(files, b) && |stored| <= |files| && b > 0
    requires forall j :: 0 <= j < MAX_STANAG_BLOCKS ==> Shows(e[j], if j == b - 1 then files else stored, j)
    requires 4 * (b - 1) <= UpToDate(stored, files)
    ensures forall j :: 0 <= j < MAX_STANAG_BLOCKS ==> Shows(e[j], Mixed(stored, files, b), j)
  {
    forall j | 0 <= j < MAX_STANAG_BLOCKS ensures Shows(e[j], Mixed(stored, files, b), j) {
      if j < b - 1 {
        assert Shows(e[j], stored, j);
        UntouchedBlockShows(e[j], stored, files, j);
      }
    }
  }

  // The mixture is the old list exactly when the old list is up to date in
  // all blocks before the current one, and the new list exactly when it
  // agrees with it in the current one.
  lemma MixedExactly(stored: seq<FileEntry>, files: seq<FileEntry>, b: nat)
    requires LastIn(files, b) && |stored| <= |files|
    ensures Mixed(stored, files, b) == stored <==> 4 * b <= UpToDate(stored, files)
    ensures Mixed(stored, files, b) == files <==> |stored| >= 4 * b && stored[4 * b..] == files[4 * b..]
  {
    var mixed, u := Mixed(stored, files, b), UpToDate(stored, files);
    assert |files[..4 * b]| == 4 * b < |files|;
    if 4 * b <= u {
      assert files[..4 * b] == stored[..4 * b];
      assert stored == stored[..4 * b] + stored[4 * b..];
    } else {
      assert mixed[u] == files[u];
    }
    if |stored| >= 4 * b {
      assert mixed[4 * b..] == stored[4 * b..];
      assert files == files[..4 * b] + files[4 * b..];
    }
  }

  // What a crash between the two writes leaves on the cartridge: the old list
  // or the new one under exactly these conditions, and otherwise neither.
  lemma CrashBetweenWritesExactly(sectors: seq<Sector>, table: seq<DirBlock>,
                                  files: seq<FileEntry>, stored: seq<FileEntry>, b: nat)
    requires Writable(table, files) && LastIn(files, b)
    requires DiskHolds(sectors, stored) && |stored| <= |files|
    requires 4 * (b - 1) <= UpToDate(stored, files)
    ensures DiskHolds(StoredPrevious(sectors, table, b), stored) <==> 4 * b <= UpToDate(stored, files)
    ensures DiskHolds(StoredPrevious(sectors, table, b), files)
       <==> |stored| >= 4 * b && stored[4 * b..] == files[4 * b..]
  {
    assert |table| == MAX_STANAG_BLOCKS;
    hide StoreBlock, StoredPrevious, DiskHolds, Holds, UpToDate, Mixed, Writable, StoredFiles;
    CrashBetweenWrites(sectors, table, files, stored, b);
    MixedExactly(stored, files, b);
    var s := StoredPrevious(sectors, table, b);
    OneListOnly(s, Mixed(stored, files, b), stored);
    OneListOnly(s, Mixed(stored, files, b), files);
  }

  lemma OneListOnly(sectors: seq<Sector>, list: seq<FileEntry>, other: seq<FileEntry>)
    requires DiskHolds(sectors, list)
    ensures DiskHolds(sectors, other) <==> other == list
  {
    hide DiskHolds;
    DiskHoldsOneSequence(sectors, list);
    if DiskHolds(sectors, other) {
      DiskHoldsOneSequence(sectors, other);
    }
  }

  // Four recordings that were closed before any update reached the cartridge,
  // and a fifth whose first update is cut off: the cartridge then lists four
  // files, where it listed none, and should list five.
  lemma CrashBetweenWritesMixes(sectors: seq<Sector>, table: seq<DirBlock>, files: seq<FileEntry>)
    requires Writable(table, files) && |files| == 5 && DiskHolds(sectors, [])
    ensures DiskHolds(StoredPrevious(sectors, table, 1), files[..4])
    ensures !DiskHolds(StoredPrevious(sectors, table, 1), []) && !DiskHolds(StoredPrevious(sectors, table, 1), files)
  {
    hide StoredPrevious, DiskHolds, Writable;
    CrashBetweenWrites(sectors, table, files, [], 1);
    CrashBetweenWritesExactly(sectors, table, files, [], 1);
  }
}
