// The file-static state of M23_Stanag.c as one value, and what each of its
// operations does to it.
module Volume {
  import opened Bytes
  import opened DirectoryFormat
  import opened Directory
  import opened DiskIo
  import opened NodeFile

  datatype Vol = Vol(
    table: seq<DirBlock>,      // FileTable
    sectors: seq<Sector>,      // the cartridge
    fileNumber: nat,           // CurrentFileNumber
    fileIndex: nat,            // CurrentFileIndex
    isOpen: bool,              // CurrentFileState == 0
    writeBlock: U64,           // CurrentWriteBlock
    totalBytes: U64,           // TotalBytesWritten
    blocksWritten: U64,        // NumberOfBlocksWritten
    nodeList: seq<nat>)        // NodeList

  const BLOCK_SIZE := 512

  // Whole blocks for a number of bytes, the last one padded.
  function Blocks(bytes: U64): (b: U64)
    ensures b <= 0x80_0000_0000_0000
    ensures BLOCK_SIZE * b - BLOCK_SIZE < bytes <= BLOCK_SIZE * b
  {
    if bytes % BLOCK_SIZE != 0 then bytes / BLOCK_SIZE + 1 else bytes / BLOCK_SIZE
  }

  // strcpy between two volume names; without a NUL all 32 bytes are copied.
  function StrCpy(dst: seq<Byte>, src: seq<Byte>): (r: seq<Byte>)
    requires |dst| == |src|
    ensures |r| == |dst|
  {
    if src == [] then []
    else if src[0] == 0 then [0] + dst[1..]
    else [src[0]] + StrCpy(dst[1..], src[1..])
  }

  lemma {:induction false} StrCpyTwice(dst: seq<Byte>, src: seq<Byte>)
    requires |dst| == |src|
    ensures StrCpy(StrCpy(dst, src), src) == StrCpy(dst, src)
  {
    if src != [] {
      var once := StrCpy(dst, src);
      if src[0] == 0 {
      } else {
        StrCpyTwice(dst[1..], src[1..]);
        assert once[1..] == StrCpy(dst[1..], src[1..]);
      }
    }
  }

  /* ---------- sopen ---------- */

  // A file table slot for the next file exists.
  predicate CanOpen(v: Vol) {
    |v.table| == MAX_STANAG_BLOCKS && v.fileNumber < MAX_NUM_FILES
    && v.table[v.fileNumber / 4].numberOfFileEntries < 4
  }

  function NewEntry(name: Text56, start: U64, date: Text8, time: Text8): FileEntry {
    FileEntry(name, start, 0, 0, date, time, 0x01, Fill(7, 0xFF), time)
  }

  function OpenedBlock(prior: DirBlock, n: nat, previousName: Text32, e: FileEntry): DirBlock
    requires prior.numberOfFileEntries < 4 && n < MAX_NUM_FILES
  {
    var b := n / 4;
    var linked := if b == 0 then prior.(shutDown := 0x00, forwardLink := 1, reverseLink := 1)
                  else prior.(shutDown := 0x00, forwardLink := b + 1, reverseLink := b,
                            volumeName := StrCpy(prior.volumeName, previousName));
    var named := if n % 4 == 0 then linked.(magicNumber := MAGIC, revisionNumber := 0xF, currBlock := 512)
                 else linked;
    named.(numberOfFileEntries := prior.numberOfFileEntries + 1,
           fileEntries := prior.fileEntries[prior.numberOfFileEntries := e])
  }

  function OpenedTable(table: seq<DirBlock>, n: nat, e: FileEntry): (t: seq<DirBlock>)
    requires |table| == MAX_STANAG_BLOCKS && n < MAX_NUM_FILES && table[n / 4].numberOfFileEntries < 4
    ensures |t| == MAX_STANAG_BLOCKS
  {
    var b := n / 4;
    if b == 0 then table[0 := OpenedBlock(table[0], n, table[0].volumeName, e)]
    else table[b - 1 := table[b - 1].(forwardLink := b + 1)]
              [b := OpenedBlock(table[b], n, table[b - 1].volumeName, e)]
  }

  function Opened(v: Vol, name: Text56, date: Text8, time: Text8): Vol
    requires v.isOpen || CanOpen(v)
  {
    if v.isOpen then v
    else v.(table := OpenedTable(v.table, v.fileNumber, NewEntry(name, v.writeBlock, date, time)),
            isOpen := true, totalBytes := 0, blocksWritten := 0)
  }

  /* ---------- UpdateStanag and its callers ---------- */

  // The current directory block has a last entry.
  predicate CanUpdate(v: Vol) {
    |v.table| == MAX_STANAG_BLOCKS && v.fileNumber < MAX_NUM_FILES
    && 1 <= v.table[v.fileNumber / 4].numberOfFileEntries <= 4
  }

  function UpdatedEntry(e: FileEntry, total: U64, time: Text8): FileEntry {
    e.(size := total, blockCount := Blocks(total), closeTime := time)
  }

  function UpdatedTable(table: seq<DirBlock>, n: nat, total: U64, time: Text8): (t: seq<DirBlock>)
    requires |table| == MAX_STANAG_BLOCKS && n < MAX_NUM_FILES
    requires 1 <= table[n / 4].numberOfFileEntries <= 4
    ensures |t| == MAX_STANAG_BLOCKS
  {
    var prior := table[n / 4];
    var slot := prior.numberOfFileEntries - 1;
    table[n / 4 := prior.(shutDown := 0xFF,
                        fileEntries := prior.fileEntries[slot := UpdatedEntry(prior.fileEntries[slot], total, time)])]
  }

  // First half of FileStoreFileTable: the block before the current block b.
  function StoredPrevious(sectors: seq<Sector>, table: seq<DirBlock>, b: nat): (r: seq<Sector>)
    requires |table| == MAX_STANAG_BLOCKS && b < MAX_STANAG_BLOCKS
    ensures |r| == |sectors|
  {
    if b == 0 then sectors else WriteAt(sectors, SYSTEM_RESERVE_BLOCKS + b - 1, StoreBlock(table[b - 1]))
  }

  function StoredCurrent(sectors: seq<Sector>, table: seq<DirBlock>, b: nat): (r: seq<Sector>)
    requires |table| == MAX_STANAG_BLOCKS && b < MAX_STANAG_BLOCKS
    ensures |r| == |sectors|
  {
    WriteAt(StoredPrevious(sectors, table, b), SYSTEM_RESERVE_BLOCKS + b, StoreBlock(table[b]))
  }

  function Updated(v: Vol, time: Text8, connected: bool): Vol
    requires CanUpdate(v)
  {
    var t := UpdatedTable(v.table, v.fileNumber, v.totalBytes, time);
    v.(table := t, sectors := if connected then StoredCurrent(v.sectors, t, v.fileNumber / 4) else v.sectors)
  }

  function UpdateStatus(v: Vol, connected: bool): int {
    if connected then Int32(Blocks(v.totalBytes)) else -1
  }

  // UpdateStanagBlocks
  function UpdatedBlocks(v: Vol, offset: U64, pktLen: int, present: bool, connected: bool, time: Text8): Vol
    requires CanUpdate(v)
  {
    if !present then v
    else
      var total := (offset + pktLen) % TWO64;
      var u := Updated(v.(totalBytes := total), time, connected);
      if total != 0 then u.(blocksWritten := Blocks(total)) else u
  }

  // UpdateStanagAndBlocks
  function UpdatedAll(v: Vol, blocksRecorded: U32, present: bool, connected: bool, time: Text8): Vol
    requires CanUpdate(v)
  {
    if !present then v
    else Updated(v.(totalBytes := blocksRecorded * 512, blocksWritten := blocksRecorded), time, connected)
  }

  /* ---------- closing ---------- */

  // sclose and Emergency_Close blank the name of the slot behind the last
  // entry, if the block has one.
  function BlankedTable(table: seq<DirBlock>, n: nat): (t: seq<DirBlock>)
    requires |table| == MAX_STANAG_BLOCKS && n < MAX_NUM_FILES
    ensures |t| == MAX_STANAG_BLOCKS
  {
    var prior := table[n / 4];
    var slot := prior.numberOfFileEntries;
    if slot < 4 then
      var blanked := prior.fileEntries[slot].(fileName := Fill(56, 0xFF));
      table[n / 4 := prior.(fileEntries := prior.fileEntries[slot := blanked])]
    else table
  }

  function EmergencyClosed(v: Vol, increment: bool): Vol
    requires |v.table| == MAX_STANAG_BLOCKS && v.fileNumber < MAX_NUM_FILES
  {
    v.(table := BlankedTable(v.table, v.fileNumber), isOpen := false,
       fileNumber := v.fileNumber + 1, fileIndex := if increment then v.fileIndex + 1 else v.fileIndex,
       writeBlock := (v.writeBlock + Blocks(v.totalBytes)) % TWO64, totalBytes := 0, blocksWritten := 0)
  }

  // The byte count sclose settles on: when the given one is a multiple of
  // 32768 it is read again from the hardware.
  function ClosingBytes(total: U64, fill: nat, btmFill: U32, blocksRecorded: U32): U64 {
    var t := (total - fill) % TWO64;
    if t % 32768 == 0 then (blocksRecorded * 512 - btmFill) % TWO64 else t
  }

  function SClosed(v: Vol, increment: bool, fill: nat, btmFill: U32, blocksRecorded: U32,
                   connected: bool, time: Text8): Vol
    requires CanUpdate(v)
  {
    var total := ClosingBytes(v.totalBytes, fill, btmFill, blocksRecorded);
    var u := Updated(v.(table := BlankedTable(v.table, v.fileNumber), totalBytes := total), time, connected);
    u.(isOpen := false, fileNumber := v.fileNumber + 1,
       fileIndex := if increment then v.fileIndex + 1 else v.fileIndex,
       writeBlock := (v.writeBlock + UpdateStatus(u, connected)) % TWO64, totalBytes := 0, blocksWritten := 0)
  }

  // What sdisk reports as used.
  function UsedBlocks(v: Vol): U32 {
    (v.writeBlock + v.blocksWritten) % 0x1_0000_0000
  }

  /* ---------- node file ---------- */

  // The node blocks of a closed recording, written from address a on.
  function NodeSectors(sectors: seq<Sector>, a: nat, nodes: seq<Node>, stale: Stale, k: nat): (r: seq<Sector>)
    requires Fits(|nodes|) && k <= NodeFileBlocks(|nodes|)
    ensures |r| == |sectors|
  {
    if k == 0 then sectors
    else WriteAt(NodeSectors(sectors, a, nodes, stale, k - 1), a + k - 1, ImageSector(nodes, stale, k - 1))
  }

  // The block that m23_WriteNodesFile writes first, to be overwritten at once.
  const DEAD_SECTOR: Sector := Fill(512, 0xAD)

  // m23_WriteNodesFile with the index enabled, then scloseNodesFile.  One
  // block more than the node file needs is reserved.  Without a cartridge
  // nothing is written or reserved, but the block is remembered.
  function NodesWritten(v: Vol, nodes: seq<Node>, stale: Stale, connected: bool): Vol
    requires 1 <= v.fileNumber <= |v.nodeList| && Fits(|nodes|)
  {
    var a, blocks := v.writeBlock, NodeFileBlocks(|nodes|);
    var total := v.totalBytes + if connected then 512 * (1 + blocks) else 0;
    v.(sectors := if connected then NodeSectors(WriteAt(v.sectors, a, DEAD_SECTOR), a, nodes, stale, blocks)
                  else v.sectors,
       nodeList := v.nodeList[v.fileNumber - 1 := a],
       writeBlock := (a + Blocks(total % TWO64)) % TWO64, totalBytes := 0)
  }

  /* ---------- erase ---------- */

  const ZERO_SECTOR: Sector := Fill(512, 0)

  // serase, when no TMATS file is kept.  An erased cartridge reads as zeros.
  function Erased(v: Vol, eraseOk: bool): Vol {
    v.(table := InitTable(), sectors := if eraseOk then seq(|v.sectors|, _ => ZERO_SECTOR) else v.sectors,
       fileNumber := 0, fileIndex := 0, isOpen := false, writeBlock := RESERVED_BLOCKS)
  }

  // InitializeStanagErase writes all 128 directory blocks.
  function StoredAll(sectors: seq<Sector>, table: seq<DirBlock>, k: nat): (r: seq<Sector>)
    requires k <= |table|
    ensures |r| == |sectors|
  {
    if k == 0 then sectors
    else WriteAt(StoredAll(sectors, table, k - 1), SYSTEM_RESERVE_BLOCKS + k - 1, StoreBlock(table[k - 1]))
  }

  // serase, when the TMATS file in the first entry is kept.
  function TmatsErased(v: Vol): Vol
    requires |v.table| == MAX_STANAG_BLOCKS
  {
    var t := TmatsTable(v.table);
    v.(table := t, sectors := StoredAll(v.sectors, t, MAX_STANAG_BLOCKS),
       fileNumber := 1, fileIndex := 1, isOpen := false,
       writeBlock := (RESERVED_BLOCKS + t[0].fileEntries[0].blockCount) % TWO64)
  }

  /* ---------- sinit ---------- */

  function LoadAll(sectors: seq<Sector>): (t: seq<DirBlock>)
    requires |sectors| >= RESERVED_BLOCKS
    ensures |t| == MAX_STANAG_BLOCKS
  {
    seq(MAX_STANAG_BLOCKS, j requires 0 <= j < MAX_STANAG_BLOCKS => LoadBlock(sectors[SYSTEM_RESERVE_BLOCKS + j]))
  }

  // Index of the first block from j on without entries.
  function FirstEmpty(table: seq<DirBlock>, j: nat): (e: nat)
    requires j <= |table|
    ensures j <= e <= |table|
    ensures forall i :: j <= i < e ==> table[i].numberOfFileEntries != 0
    ensures e < |table| ==> table[e].numberOfFileEntries == 0
    decreases |table| - j
  {
    if j == |table| || table[j].numberOfFileEntries == 0 then j else FirstEmpty(table, j + 1)
  }

  // Entries in the first j blocks.
  function CountTo(table: seq<DirBlock>, j: nat): nat
    requires j <= |table|
  {
    if j == 0 then 0 else CountTo(table, j - 1) + table[j - 1].numberOfFileEntries
  }

  lemma {:induction false} CountPositive(table: seq<DirBlock>, j: nat)
    requires 0 < j <= FirstEmpty(table, 0)
    ensures CountTo(table, j) > 0
  {
  }

  // Where the next recording goes: behind the last counted entry - unless no
  // block is empty, for then the source never sets the cursor.
  function RecoveredWriteBlock(table: seq<DirBlock>): U64 {
    var e := FirstEmpty(table, 0);
    if e == 0 || e == |table| then RESERVED_BLOCKS
    else
      CountPositive(table, e);
      End(table[e - 1].fileEntries[(CountTo(table, e) - 1) % 4]) % TWO64
  }

  datatype Probed = Probed(ok: bool, nodeList: seq<nat>, numBlock: U32)

  // FileRetrieveFileTable looks for a node file behind every entry; the last
  // one found counts.  p runs over the table positions, four to a block.
  function Probe(table: seq<DirBlock>, sectors: seq<Sector>, faults: set<nat>, p: nat, so: Probed): (r: Probed)
    requires |table| == MAX_STANAG_BLOCKS && p <= MAX_NUM_FILES && |so.nodeList| == MAX_NUM_FILES
    ensures |r.nodeList| == MAX_NUM_FILES
    decreases MAX_NUM_FILES - p
  {
    if p == MAX_NUM_FILES then so
    else if p % 4 >= table[p / 4].numberOfFileEntries then Probe(table, sectors, faults, p + 1, so)
    else
      var a := End(table[p / 4].fileEntries[p % 4]) % 0x1_0000_0000;
      if !Readable(sectors, faults, a) then so.(ok := false)
      else if IsNodeFile(sectors[a]) then
        Probe(table, sectors, faults, p + 1,
              so.(nodeList := so.nodeList[p := a], numBlock := NodeCount(sectors[a])))
      else Probe(table, sectors, faults, p + 1, so)
  }

  // Blocks reserved for a node file whose header gives this count; the source
  // keeps the count in an int and tests it for being positive.
  function NodeReserve(count: U32): (b: nat)
    ensures b <= 0x400_0001
  {
    if Int32(count) > 0 then NodeFileBlocks(count) else 0
  }

  predicate DirectoryReadable(sectors: seq<Sector>, faults: set<nat>) {
    |sectors| >= RESERVED_BLOCKS && forall a :: 1 <= a < RESERVED_BLOCKS ==> a !in faults
  }

  // sinit.  With probe the configuration keeps node files.
  function Mounted(v: Vol, faults: set<nat>, probe: bool): Vol
    requires |v.nodeList| == MAX_NUM_FILES
  {
    var start := v.(writeBlock := RESERVED_BLOCKS, fileNumber := 0, fileIndex := 0, isOpen := false);
    if !DirectoryReadable(v.sectors, faults) || BlockFromImage(v.sectors[1]).magicNumber != MAGIC then
      start.(table := InitTable())
    else
      var t := LoadAll(v.sectors);
      var loaded := start.(table := t, fileNumber := CountTo(t, FirstEmpty(t, 0)),
                           fileIndex := CountTo(t, MAX_STANAG_BLOCKS), writeBlock := RecoveredWriteBlock(t));
      if !probe then loaded
      else
        var r := Probe(t, v.sectors, faults, 0, Probed(true, v.nodeList, 0));
        if !r.ok then loaded.(table := InitTable(), nodeList := r.nodeList)
        else loaded.(nodeList := r.nodeList,
                     writeBlock := (loaded.writeBlock + NodeReserve(r.numBlock)) % TWO64)
  }

  function NoNodeBlocks(): (s: seq<nat>)
    ensures |s| == MAX_NUM_FILES
  {
    seq(MAX_NUM_FILES, _ => 0)
  }

  // Power loss: memory is cleared, the cartridge keeps its sectors.
  function PowerCycled(v: Vol, faults: set<nat>, probe: bool): Vol {
    Mounted(v.(totalBytes := 0, blocksWritten := 0, nodeList := NoNodeBlocks()), faults, probe)
  }
}
