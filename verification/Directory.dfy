// The directory as a table of 128 blocks of four entries, and the one abstract
// file sequence it stands for.
module Directory {
  import opened Bytes
  import opened DirectoryFormat

  const MAX_STANAG_BLOCKS := 128
  const MAX_NUM_FILES := 512
  const SYSTEM_RESERVE_BLOCKS := 1
  const RESERVED_BLOCKS := 129
  // A directory with more files than this leaves recovery no empty block.
  const MAX_RECOVERABLE_FILES := 508

  // How many of the first n files live in directory block j.
  function Live(n: nat, j: nat): (c: nat)
    ensures c <= 4
  {
    if n <= 4 * j then 0 else if n >= 4 * j + 4 then 4 else n - 4 * j
  }

  // File k lives in block k/4, slot k%4; earlier blocks are full, later ones
  // are empty.
  ghost predicate Holds(table: seq<DirBlock>, files: seq<FileEntry>) {
    && |table| == MAX_STANAG_BLOCKS
    && |files| <= MAX_NUM_FILES
    && (forall j :: 0 <= j < MAX_STANAG_BLOCKS ==> table[j].numberOfFileEntries == Live(|files|, j))
    && (forall k :: 0 <= k < |files| ==> table[k / 4].fileEntries[k % 4] == files[k])
  }

  // Block j of a table that holds files.
  ghost predicate Shows(block: DirBlock, files: seq<FileEntry>, j: nat) {
    && block.numberOfFileEntries == Live(|files|, j)
    && forall i :: 0 <= i < Live(|files|, j) ==> block.fileEntries[i] == files[4 * j + i]
  }

  lemma ShowsEveryBlock(table: seq<DirBlock>, files: seq<FileEntry>)
    requires Holds(table, files)
    ensures |files| <= MAX_NUM_FILES
    ensures forall j :: 0 <= j < MAX_STANAG_BLOCKS ==> Shows(table[j], files, j)
  {
    forall j | 0 <= j < MAX_STANAG_BLOCKS ensures Shows(table[j], files, j) {
      forall i | 0 <= i < Live(|files|, j) ensures table[j].fileEntries[i] == files[4 * j + i] {
        assert (4 * j + i) / 4 == j && (4 * j + i) % 4 == i;
      }
    }
  }

  lemma HoldsBlockwise(table: seq<DirBlock>, files: seq<FileEntry>)
    requires |table| == MAX_STANAG_BLOCKS && |files| <= MAX_NUM_FILES
    requires forall j :: 0 <= j < MAX_STANAG_BLOCKS ==> Shows(table[j], files, j)
    ensures Holds(table, files)
  {
    forall k | 0 <= k < |files| ensures table[k / 4].fileEntries[k % 4] == files[k] {
      assert Shows(table[k / 4], files, k / 4);
    }
  }

  // The live entries from block j on, up to the first empty block.
  function FilesFrom(table: seq<DirBlock>, j: nat): seq<FileEntry>
    requires j <= |table|
    decreases |table| - j
  {
    if j == |table| || table[j].numberOfFileEntries == 0 then []
    else
      var c := table[j].numberOfFileEntries;
      table[j].fileEntries[..if c < 4 then c else 4] + FilesFrom(table, j + 1)
  }

  function FilesOf(table: seq<DirBlock>): seq<FileEntry> {
    FilesFrom(table, 0)
  }

  lemma {:induction false} FilesFromBlock(table: seq<DirBlock>, files: seq<FileEntry>, j: nat)
    requires |table| == MAX_STANAG_BLOCKS && |files| <= MAX_NUM_FILES && j <= MAX_STANAG_BLOCKS
    requires forall i :: 0 <= i < MAX_STANAG_BLOCKS ==> Shows(table[i], files, i)
    ensures FilesFrom(table, j) == if 4 * j <= |files| then files[4 * j..] else []
    decreases MAX_STANAG_BLOCKS - j
  {
    if j < MAX_STANAG_BLOCKS {
      assert Shows(table[j], files, j);
      FilesFromBlock(table, files, j + 1);
      var c := Live(|files|, j);
      if c > 0 {
        assert table[j].fileEntries[..c] == files[4 * j..4 * j + c];
        assert files[4 * j..] == files[4 * j..4 * j + c] + files[4 * j + c..];
      }
    }
  }

  // A table holds at most one file sequence: the one found by scanning it.
  lemma HeldFilesAreScanned(table: seq<DirBlock>, files: seq<FileEntry>)
    requires Holds(table, files)
    ensures FilesOf(table) == files
  {
    ShowsEveryBlock(table, files);
    FilesFromBlock(table, files, 0);
    assert files[0..] == files;
  }

  /* ---------- extents ---------- */

  // First block after the file.
  function End(e: FileEntry): nat {
    e.startAddress + e.blockCount
  }

  // Extents start at or above the first data block, in order and disjoint.
  ghost predicate Ordered(files: seq<FileEntry>) {
    && (files != [] ==> files[0].startAddress >= RESERVED_BLOCKS)
    && (forall k :: 0 <= k < |files| - 1 ==> End(files[k]) <= files[k + 1].startAddress)
  }

  // Without node files every file starts where the one before it ended.
  ghost predicate Tight(files: seq<FileEntry>) {
    && (files != [] ==> files[0].startAddress == RESERVED_BLOCKS)
    && (forall k :: 0 <= k < |files| - 1 ==> End(files[k]) == files[k + 1].startAddress)
  }

  function EndOfFiles(files: seq<FileEntry>): nat {
    if files == [] then RESERVED_BLOCKS else End(files[|files| - 1])
  }

  // No two files share a block, and none reaches into the directory.
  lemma {:induction false} ExtentsAreDisjoint(files: seq<FileEntry>, i: nat, k: nat)
    requires Ordered(files) && i < k < |files|
    ensures RESERVED_BLOCKS <= files[i].startAddress <= End(files[i]) <= files[k].startAddress
    ensures End(files[i]) <= EndOfFiles(files)
    decreases k
  {
    FirstBlockBound(files, i);
    if k == i + 1 {
    } else {
      ExtentsAreDisjoint(files, i, k - 1);
    }
    EndBound(files, i);
  }

  lemma {:induction false} FirstBlockBound(files: seq<FileEntry>, i: nat)
    requires Ordered(files) && i < |files|
    ensures RESERVED_BLOCKS <= files[i].startAddress
  {
    if i > 0 {
      FirstBlockBound(files, i - 1);
    }
  }

  lemma {:induction false} EndBound(files: seq<FileEntry>, i: nat)
    requires Ordered(files) && i < |files|
    ensures End(files[i]) <= EndOfFiles(files)
    decreases |files| - i
  {
    if i < |files| - 1 {
      EndBound(files, i + 1);
    }
  }

  /* ---------- links ---------- */

  // Block j sits at disk address j + 1.  The last block of a full directory
  // prefix may already name its successor: a crash between the two block
  // writes leaves it so, and the next sopen makes the link true.
  ghost predicate Linked(table: seq<DirBlock>, n: nat) {
    n > 0 && |table| == MAX_STANAG_BLOCKS && n <= MAX_NUM_FILES ==>
      var last := (n - 1) / 4;
      && (forall j :: 0 <= j < last ==> table[j].forwardLink == j + 2)
      && (table[last].forwardLink == last + 1 || (n % 4 == 0 && table[last].forwardLink == last + 2))
      && (forall j :: 0 <= j <= last ==> table[j].reverseLink == if j == 0 then 1 else j)
  }

  ghost predicate SelfTerminated(table: seq<DirBlock>, n: nat) {
    n > 0 && |table| == MAX_STANAG_BLOCKS && n <= MAX_NUM_FILES ==>
      table[(n - 1) / 4].forwardLink == (n - 1) / 4 + 1
  }

  // The addresses a reader visits from address a by following forward links
  // until a block links to itself.
  function Walk(table: seq<DirBlock>, a: nat, fuel: nat): seq<nat>
    decreases fuel
  {
    if fuel == 0 || a == 0 || a > |table| || table[a - 1].forwardLink == a then [a]
    else [a] + Walk(table, table[a - 1].forwardLink, fuel - 1)
  }

  lemma {:induction false} WalkFrom(table: seq<DirBlock>, last: nat, a: nat)
    requires last < |table| == MAX_STANAG_BLOCKS && 1 <= a <= last + 1
    requires forall j :: 0 <= j < last ==> table[j].forwardLink == j + 2
    requires table[last].forwardLink == last + 1
    ensures Walk(table, a, MAX_STANAG_BLOCKS - a) == seq(last + 2 - a, i => a + i)
    decreases last + 1 - a
  {
    if a <= last {
      assert table[a - 1].forwardLink == a + 1;
      WalkFrom(table, last, a + 1);
      var rest := Walk(table, a + 1, MAX_STANAG_BLOCKS - (a + 1));
      assert Walk(table, a, MAX_STANAG_BLOCKS - a) == [a] + rest;
    }
  }

  // A reader that starts at address 1 and follows forward links visits
  // exactly the blocks in use, in order, and stops at the self link; the
  // reverse links lead back.
  lemma {:induction false} ForwardLinksVisitEveryBlock(table: seq<DirBlock>, n: nat)
    requires |table| == MAX_STANAG_BLOCKS && 0 < n <= MAX_NUM_FILES
    requires Linked(table, n) && SelfTerminated(table, n)
    ensures Walk(table, 1, MAX_STANAG_BLOCKS - 1) == seq((n - 1) / 4 + 1, i => 1 + i)
    ensures forall j :: 0 < j <= (n - 1) / 4 ==>
      1 <= table[j].reverseLink <= j && table[table[j].reverseLink - 1].forwardLink == j + 1
  {
    WalkFrom(table, (n - 1) / 4, 1);
  }

  /* ---------- tables made from scratch ---------- */

  // InitializeStanag: one empty block.
  function InitBlock(k: nat): DirBlock
    requires k < MAX_STANAG_BLOCKS
  {
    DirBlock(MAGIC, 0xF, 0x00, 0, 512, Fill(32, 0),
             if k == MAX_STANAG_BLOCKS - 1 then k else k + 1,
             if k == 0 then 1 else k - 1,
             [BLANK_ENTRY, BLANK_ENTRY, BLANK_ENTRY, BLANK_ENTRY])
  }

  function InitTable(): (t: seq<DirBlock>)
    ensures |t| == MAX_STANAG_BLOCKS
  {
    seq(MAX_STANAG_BLOCKS, k requires 0 <= k < MAX_STANAG_BLOCKS => InitBlock(k))
  }

  lemma InitTableHoldsNothing()
    ensures Holds(InitTable(), [])
  {
  }

  // InitializeStanagErase numbers the links of the emptied blocks on from
  // whatever the forward link of block 0 still is.
  function EmptiedBlock(base: U64, k: nat): DirBlock
    requires 0 < k < MAX_STANAG_BLOCKS
  {
    InitBlock(k).(forwardLink := (if k == MAX_STANAG_BLOCKS - 1 then base + k - 1 else base + k) % TWO64,
                  reverseLink := (base + k - 2) % TWO64)
  }

  // InitializeStanagErase: keep the first entry only.
  function TmatsTable(table: seq<DirBlock>): (t: seq<DirBlock>)
    requires |table| == MAX_STANAG_BLOCKS
    ensures |t| == MAX_STANAG_BLOCKS
  {
    seq(MAX_STANAG_BLOCKS, k requires 0 <= k < MAX_STANAG_BLOCKS =>
      if k > 0 then EmptiedBlock(table[0].forwardLink, k)
      else table[0].(forwardLink := 1, reverseLink := 1, numberOfFileEntries := 1, shutDown := 0xFF,
                     fileEntries := [table[0].fileEntries[0].(startAddress := RESERVED_BLOCKS),
                                     BLANK_ENTRY, BLANK_ENTRY, BLANK_ENTRY]))
  }

  lemma TmatsTableHoldsOneFile(table: seq<DirBlock>, files: seq<FileEntry>)
    requires Holds(table, files) && files != []
    ensures Holds(TmatsTable(table), [files[0].(startAddress := RESERVED_BLOCKS)])
    ensures Linked(TmatsTable(table), 1) && SelfTerminated(TmatsTable(table), 1)
  {
    assert table[0 / 4].fileEntries[0 % 4] == files[0];
  }
}
