// M23_Stanag.c itself: the file-static tables and cursors, updated in place.
// Each method is proved against the operation of module Volume it performs.
module StanagVolume {
  import opened Bytes
  import opened DirectoryFormat
  import opened Directory
  import opened DiskIo
  import opened NodeFile
  import opened Volume

  class Stanag {
    const disk: Cartridge
    const fileTable: array<DirBlock>
    const stanagSwapped: array<DirBlock>
    const nodeList: array<nat>
    var currentFileNumber: nat
    var currentFileIndex: nat
    var isOpen: bool
    var currentWriteBlock: U64
    var totalBytesWritten: U64
    var numberOfBlocksWritten: U64
    var totalAvailableBlocks: U32

    ghost predicate Allocated()
      reads this
    {
      && fileTable.Length == MAX_STANAG_BLOCKS
      && stanagSwapped.Length == MAX_STANAG_BLOCKS
      && fileTable != stanagSwapped
      && nodeList.Length == MAX_NUM_FILES
    }

    // The value the operations of module Volume work on.
    ghost function State(): Vol
      reads this, disk, fileTable, nodeList
    {
      Vol(fileTable[..], disk.sectors, currentFileNumber, currentFileIndex, isOpen, currentWriteBlock,
          totalBytesWritten, numberOfBlocksWritten, nodeList[..])
    }

    // Statics at power-up.
    constructor (disk: Cartridge)
      ensures Allocated() && this.disk == disk
      ensures fresh(fileTable) && fresh(stanagSwapped) && fresh(nodeList)
      ensures totalBytesWritten == numberOfBlocksWritten == 0 && nodeList[..] == seq(MAX_NUM_FILES, _ => 0)
    {
      this.disk := disk;
      fileTable := new DirBlock[MAX_STANAG_BLOCKS](_ => InitBlock(0));
      stanagSwapped := new DirBlock[MAX_STANAG_BLOCKS](_ => InitBlock(0));
      nodeList := new nat[MAX_NUM_FILES](_ => 0);
      currentFileNumber, currentFileIndex, isOpen := 0, 0, true;
      currentWriteBlock, totalBytesWritten, numberOfBlocksWritten, totalAvailableBlocks := 0, 0, 0, 0;
    }

    /* ---------- storing ---------- */

    method SwapStanag()
      requires Allocated()
      modifies stanagSwapped
      ensures forall j :: 0 <= j < MAX_STANAG_BLOCKS ==> stanagSwapped[j] == SwapBlock(fileTable[j])
    {
      for i := 0 to MAX_STANAG_BLOCKS
        invariant forall j :: 0 <= j < i ==> stanagSwapped[j] == SwapBlock(fileTable[j])
      {
        stanagSwapped[i] := SwapBlock(fileTable[i]);
      }
    }

    // DiskWrite always reports 512 bytes, so the error exits behind the two
    // writes are never taken.
    method FileStoreFileTable() returns (status: int)
      requires Allocated() && currentFileNumber < MAX_NUM_FILES
      requires forall j :: 0 <= j < MAX_STANAG_BLOCKS ==> stanagSwapped[j] == SwapBlock(fileTable[j])
      modifies disk`sectors, disk`writePointer
      ensures status == if disk.connected then 0 else -1
      ensures disk.sectors == if disk.connected
                              then StoredCurrent(old(disk.sectors), fileTable[..], currentFileNumber / 4)
                              else old(disk.sectors)
    {
      if !disk.connected {
        return -1;
      }
      var block := currentFileNumber / 4;
      if block != 0 {
        disk.WriteSeek(SYSTEM_RESERVE_BLOCKS + (block - 1));
        var _ := disk.Write(BlockImage(stanagSwapped[block - 1]));
      }
      disk.WriteSeek(SYSTEM_RESERVE_BLOCKS + block);
      var _ := disk.Write(BlockImage(stanagSwapped[block]));
      status := 0;
    }

    method FillLastEntry(blocksWritten: U64, closeTime: Text8)
      requires Allocated() && CanUpdate(State()) && blocksWritten == Blocks(totalBytesWritten)
      modifies fileTable
      ensures fileTable[..] == UpdatedTable(old(fileTable[..]), currentFileNumber, totalBytesWritten, closeTime)
    {
      var block := currentFileNumber / 4;
      var slot := fileTable[block].numberOfFileEntries - 1;
      var entry := fileTable[block].fileEntries[slot].(size := totalBytesWritten);
      entry := entry.(blockCount := blocksWritten);
      entry := entry.(closeTime := closeTime);
      fileTable[block] := fileTable[block].(fileEntries := fileTable[block].fileEntries[slot := entry]);
      fileTable[block] := fileTable[block].(shutDown := 0xFF);
    }

    // The blocks that totalBytesWritten bytes take up.
    method WholeBlocks() returns (blocksWritten: U64)
      ensures blocksWritten == Blocks(totalBytesWritten)
    {
      blocksWritten := 0;
      if totalBytesWritten != 0 {
        if totalBytesWritten % BLOCK_SIZE != 0 {
          blocksWritten := totalBytesWritten / BLOCK_SIZE + 1;
        } else {
          blocksWritten := totalBytesWritten / BLOCK_SIZE;
        }
      }
    }

    // closing: the mode argument is 1; the registers are read again then.
    method UpdateStanag(closing: bool, closeTime: Text8, btmFill: U32, blocksRecorded: U32) returns (status: int)
      requires Allocated() && CanUpdate(State())
      modifies this`totalBytesWritten, fileTable, stanagSwapped, disk`sectors, disk`writePointer
      ensures totalBytesWritten == if closing then ClosingBytes(old(totalBytesWritten), 0, btmFill, blocksRecorded)
                                   else old(totalBytesWritten)
      ensures State() == Updated(old(State()).(totalBytes := totalBytesWritten), closeTime, disk.connected)
      ensures status == UpdateStatus(State(), disk.connected)
    {
      hide StoreBlock, SwapBlock, StoredCurrent, UpdatedTable;
      if closing && totalBytesWritten % 32768 == 0 {
        totalBytesWritten := (blocksRecorded * 512 - btmFill) % TWO64;
      }
      var blocksWritten := WholeBlocks();
      FillLastEntry(blocksWritten, closeTime);
      SwapStanag();
      var stored := FileStoreFileTable();
      if stored == -1 {
        return -1;
      }
      return Int32(blocksWritten);
    }

    method UpdateStanagBlocks(offset: U64, pktLen: int, notPresent: bool, closeTime: Text8)
      requires Allocated() && CanUpdate(State())
      modifies this`totalBytesWritten, this`numberOfBlocksWritten, fileTable, stanagSwapped
      modifies disk`sectors, disk`writePointer
      ensures State() == UpdatedBlocks(old(State()), offset, pktLen, !notPresent, disk.connected, closeTime)
    {
      if notPresent {
        return;
      }
      totalBytesWritten := (offset + pktLen) % TWO64;
      var _ := UpdateStanag(false, closeTime, 0, 0);
      if totalBytesWritten != 0 {
        if totalBytesWritten % BLOCK_SIZE != 0 {
          numberOfBlocksWritten := totalBytesWritten / BLOCK_SIZE + 1;
        } else {
          numberOfBlocksWritten := totalBytesWritten / BLOCK_SIZE;
        }
      }
    }

    method UpdateStanagAndBlocks(blocksRecorded: U32, notPresent: bool, closeTime: Text8)
      requires Allocated() && CanUpdate(State())
      modifies this`totalBytesWritten, this`numberOfBlocksWritten, fileTable, stanagSwapped
      modifies disk`sectors, disk`writePointer
      ensures State() == UpdatedAll(old(State()), blocksRecorded, !notPresent, disk.connected, closeTime)
    {
      if notPresent {
        return;
      }
      numberOfBlocksWritten := blocksRecorded;
      totalBytesWritten := blocksRecorded * 512;
      var _ := UpdateStanag(false, closeTime, 0, 0);
    }

    /* ---------- opening ---------- */

    method SOpen(name: Text56, date: Text8, time: Text8) returns (file: int)
      requires Allocated() && (isOpen || CanOpen(State()))
      modifies this`isOpen, this`totalBytesWritten, this`numberOfBlocksWritten, fileTable, disk`recordPointer
      ensures State() == Opened(old(State()), name, date, time)
      ensures file == if old(isOpen) then -1 else currentFileNumber
      ensures !old(isOpen) ==> disk.recordPointer == currentWriteBlock
    {
      if isOpen {
        return -1;
      }
      isOpen := true;
      totalBytesWritten := 0;
      disk.RecordSeek(currentWriteBlock);
      hide OpenedTable;
      PlaceEntry(NewEntry(name, currentWriteBlock, date, time));
      numberOfBlocksWritten := 0;
      return currentFileNumber;
    }

    // sopen, the directory block of the new file.
    method PlaceEntry(e: FileEntry)
      requires Allocated() && CanOpen(State())
      modifies fileTable
      ensures fileTable[..] == OpenedTable(old(fileTable[..]), currentFileNumber, e)
    {
      var block := currentFileNumber / 4;
      LinkBlock(block);
      if block > 0 {
        StrCpyTwice(old(fileTable[block]).volumeName, old(fileTable[block - 1]).volumeName);
      }
      if currentFileNumber % 4 == 0 {
        NameBlock(block);
      }
      hide StrCpy;
      var slot := fileTable[block].numberOfFileEntries;
      fileTable[block] := fileTable[block].(numberOfFileEntries := slot + 1);
      fileTable[block] := fileTable[block].(fileEntries := fileTable[block].fileEntries[slot := e]);
    }

    // sopen, links and volume name of the block the new file goes to.
    method LinkBlock(block: nat)
      requires Allocated() && block < MAX_STANAG_BLOCKS
      modifies fileTable
      ensures fileTable[block]
           == (if block == 0 then old(fileTable[0]).(shutDown := 0x00, forwardLink := 1, reverseLink := 1)
               else old(fileTable[block]).(shutDown := 0x00, forwardLink := block + 1, reverseLink := block,
                      volumeName := StrCpy(old(fileTable[block]).volumeName, old(fileTable[block - 1]).volumeName)))
      ensures block > 0 ==> fileTable[block - 1] == old(fileTable[block - 1]).(forwardLink := block + 1)
      ensures forall j :: 0 <= j < MAX_STANAG_BLOCKS && j != block && j != block - 1 ==>
        fileTable[j] == old(fileTable[j])
    {
      hide StrCpy;
      fileTable[block] := fileTable[block].(shutDown := 0x00);
      if block == 0 {
        fileTable[block] := fileTable[block].(forwardLink := 1, reverseLink := 1);
      } else {
        fileTable[block] := fileTable[block].(forwardLink := block + 1);
        fileTable[block] := fileTable[block].(reverseLink := fileTable[block].forwardLink - 1);
        fileTable[block - 1] := fileTable[block - 1].(forwardLink := fileTable[block].reverseLink + 1);
        fileTable[block] := fileTable[block].(volumeName :=
          StrCpy(fileTable[block].volumeName, fileTable[block - 1].volumeName));
      }
    }

    // sopen, first file of a block.
    method NameBlock(block: nat)
      requires Allocated() && block < MAX_STANAG_BLOCKS
      requires block > 0 ==> fileTable[block].volumeName
                             == StrCpy(fileTable[block].volumeName, fileTable[block - 1].volumeName)
      modifies fileTable
      ensures fileTable[block] == old(fileTable[block]).(magicNumber := MAGIC, revisionNumber := 0xF, currBlock := 512)
      ensures forall j :: 0 <= j < MAX_STANAG_BLOCKS && j != block ==> fileTable[j] == old(fileTable[j])
    {
      fileTable[block] := fileTable[block].(magicNumber := MAGIC, revisionNumber := 0xF, currBlock := 512);
      if block > 0 {
        fileTable[block] := fileTable[block].(volumeName :=
          StrCpy(fileTable[block].volumeName, fileTable[block - 1].volumeName));
      }
    }

    /* ---------- closing ---------- */

    method BlankNextName(block: nat)
      requires Allocated() && block < MAX_STANAG_BLOCKS
      modifies fileTable
      ensures forall j :: 0 <= j < MAX_STANAG_BLOCKS && j != block ==> fileTable[j] == old(fileTable[j])
      ensures fileTable[block].numberOfFileEntries == old(fileTable[block]).numberOfFileEntries
      ensures currentFileNumber / 4 == block ==> fileTable[..] == BlankedTable(old(fileTable[..]), currentFileNumber)
    {
      if fileTable[block].numberOfFileEntries < 4 {
        var slot := fileTable[block].numberOfFileEntries;
        var blanked := fileTable[block].fileEntries[slot].(fileName := Fill(56, 0xFF));
        fileTable[block] := fileTable[block].(fileEntries := fileTable[block].fileEntries[slot := blanked]);
      }
    }

    method SClose(increment: bool, fill: nat, btmFill: U32, blocksRecorded: U32, closeTime: Text8)
      requires Allocated() && CanUpdate(State())
      modifies this, fileTable, stanagSwapped, disk`sectors, disk`writePointer
      ensures State() == SClosed(old(State()), increment, fill, btmFill, blocksRecorded, disk.connected, closeTime)
      ensures totalAvailableBlocks == old(totalAvailableBlocks)
    {
      ClosingBytesTwice(totalBytesWritten, fill, btmFill, blocksRecorded);
      hide ClosingBytes, BlankedTable, UpdatedTable, StoredCurrent, Int32;
      isOpen := false;
      totalBytesWritten := (totalBytesWritten - fill) % TWO64;
      BlankNextName(currentFileNumber / 4);
      var blocksWritten := UpdateStanag(true, closeTime, btmFill, blocksRecorded);
      NextFile(increment, blocksWritten);
    }

    // The counters behind a closed file.
    method NextFile(increment: bool, blocksWritten: int)
      modifies this`currentFileNumber, this`currentFileIndex, this`currentWriteBlock, this`totalBytesWritten,
               this`numberOfBlocksWritten
      ensures State() == old(State()).(
        fileNumber := old(currentFileNumber) + 1,
        fileIndex := if increment then old(currentFileIndex) + 1 else old(currentFileIndex),
        writeBlock := (old(currentWriteBlock) + blocksWritten) % TWO64, totalBytes := 0, blocksWritten := 0)
    {
      currentFileNumber := currentFileNumber + 1;
      if increment {
        currentFileIndex := currentFileIndex + 1;
      }
      currentWriteBlock := (currentWriteBlock + blocksWritten) % TWO64;
      totalBytesWritten := 0;
      numberOfBlocksWritten := 0;
    }

    method EmergencyClose(increment: bool)
      requires Allocated() && currentFileNumber < MAX_NUM_FILES
      modifies this, fileTable
      ensures State() == EmergencyClosed(old(State()), increment)
      ensures currentFileNumber == old(currentFileNumber) + 1
      ensures totalAvailableBlocks == old(totalAvailableBlocks)
    {
      isOpen := false;
      BlankNextName(currentFileNumber / 4);
      var blocksWritten := WholeBlocks();
      NextFile(increment, blocksWritten);
    }

    /* ---------- node file ---------- */

    // swrite of one block.
    method SWrite(s: Sector) returns (bytesWritten: nat)
      modifies this`totalBytesWritten, disk`sectors
      ensures bytesWritten == if disk.connected then 512 else 0
      ensures totalBytesWritten == AddBytes(old(totalBytesWritten), bytesWritten)
      ensures disk.sectors == if disk.connected then WriteAt(old(disk.sectors), disk.writePointer, s)
                              else old(disk.sectors)
    {
      if !disk.connected {
        return 0;
      }
      var _ := disk.Write(s);
      bytesWritten := 512;
      totalBytesWritten := (totalBytesWritten + bytesWritten) % TWO64;
    }

    method SCloseNodesFile()
      modifies this`currentWriteBlock, this`totalBytesWritten
      ensures currentWriteBlock == (old(currentWriteBlock) + Blocks(old(totalBytesWritten))) % TWO64
      ensures totalBytesWritten == 0
    {
      var blocksWritten := WholeBlocks();
      currentWriteBlock := (currentWriteBlock + blocksWritten) % TWO64;
      totalBytesWritten := 0;
    }

    // m23_WriteNodesFile with the index enabled.
    method WriteNodesFile(buffer: array<Byte>, nodes: array<Node>, currentNode: nat)
      requires Allocated() && 1 <= currentFileNumber <= MAX_NUM_FILES
      requires currentNode <= nodes.Length && Fits(currentNode) && buffer.Length == NODE_BUFFER_BYTES
      modifies this`currentWriteBlock, this`totalBytesWritten, nodeList, buffer, disk`sectors, disk`writePointer
      ensures State() == NodesWritten(old(State()), old(nodes[..currentNode]), old(buffer[..]), disk.connected)
    {
      hide FileImage, NodeSectors, WriteAt, AddBytes, Blocks, NodeFileBlocks;
      BytesOfNodeFile(totalBytesWritten, disk.connected, NodeFileBlocks(currentNode));
      ghost var list := nodes[..currentNode];
      ghost var stale: Stale := buffer[..];
      var block := currentWriteBlock;
      WriteMark(buffer);
      SameImage(list, buffer[..], stale);
      FillBuffer(buffer, nodes, currentNode);
      var size := PaddedSize(currentNode);
      nodeList[currentFileNumber - 1] := block;
      disk.WriteSeek(block);
      WriteNodeBlocks(buffer, list, stale, size / 512);
      SCloseNodesFile();
    }

    // m23_WriteNodesFile, the block that is written twice.
    method WriteMark(buffer: array<Byte>)
      requires buffer.Length == NODE_BUFFER_BYTES
      modifies this`totalBytesWritten, buffer, disk`sectors, disk`writePointer
      ensures disk.sectors == if disk.connected then WriteAt(old(disk.sectors), currentWriteBlock, DEAD_SECTOR)
                              else old(disk.sectors)
      ensures totalBytesWritten == AddBytes(old(totalBytesWritten), if disk.connected then 512 else 0)
      ensures forall k :: MAX_NODE_BLOCKS * 512 <= k < NODE_BUFFER_BYTES ==> buffer[k] == old(buffer[k])
    {
      hide WriteAt, AddBytes;
      disk.WriteSeek(currentWriteBlock);
      Poison(buffer);
      var _ := SWrite(buffer[..512]);
      disk.WriteSeek(currentWriteBlock);
    }

    // memset of the node buffer with 0xDEAD, of which a byte keeps 0xAD.
    method Poison(buffer: array<Byte>)
      requires buffer.Length == NODE_BUFFER_BYTES
      modifies buffer
      ensures buffer[..512] == DEAD_SECTOR
      ensures forall k :: MAX_NODE_BLOCKS * 512 <= k < NODE_BUFFER_BYTES ==> buffer[k] == old(buffer[k])
    {
      forall k | 0 <= k < MAX_NODE_BLOCKS * 512 {
        buffer[k] := 0xAD;
      }
    }

    method PaddedSize(n: nat) returns (size: nat)
      ensures size == 512 * NodeFileBlocks(n)
    {
      size := n * NODE_SIZE + NODE_HEADER;
      WholeBlocksOf(size);
      if size % 512 != 0 {
        size := size + (512 - size % 512);
      }
    }

    // The loop of single-block writes in m23_WriteNodesFile.
    method WriteNodeBlocks(buffer: array<Byte>, ghost nodes: seq<Node>, ghost stale: Stale, count: nat)
      requires Fits(|nodes|) && count == NodeFileBlocks(|nodes|) && 512 * count <= buffer.Length
      requires buffer[..512 * count] == FileImage(nodes, stale)
      modifies this`totalBytesWritten, disk`sectors, disk`writePointer
      ensures disk.sectors == if disk.connected
                              then NodeSectors(old(disk.sectors), old(disk.writePointer), nodes, stale, count)
                              else old(disk.sectors)
      ensures totalBytesWritten == AddBytes(old(totalBytesWritten), if disk.connected then 512 * count else 0)
    {
      hide FileImage, AddBytes;
      AddBytesZero(totalBytesWritten);
      var block := disk.writePointer;
      for i := 0 to count
        invariant block == disk.writePointer == old(disk.writePointer) + i
        invariant disk.sectors == if disk.connected
                                  then NodeSectors(old(disk.sectors), old(disk.writePointer), nodes, stale, i)
                                  else old(disk.sectors)
        invariant totalBytesWritten == AddBytes(old(totalBytesWritten), if disk.connected then 512 * i else 0)
      {
        assert buffer[512 * i..512 * (i + 1)] == FileImage(nodes, stale)[512 * i..512 * (i + 1)];
        AddBytesTwice(old(totalBytesWritten), 512 * i, 512);
        AddBytesTwice(old(totalBytesWritten), 0, 0);
        var _ := SWrite(buffer[512 * i..512 * (i + 1)]);
        block := block + 1;
        disk.WriteSeek(block);
      }
    }

    /* ---------- erasing ---------- */

    // FileTable[k] of InitializeStanag, and of InitializeStanagErase for k > 0:
    // the links number on from the block before.
    method InitializeBlock(k: nat)
      requires Allocated() && k < MAX_STANAG_BLOCKS
      modifies fileTable
      ensures fileTable[k] == if k == 0 then InitBlock(0) else InitBlock(k).(
          forwardLink := (if k == MAX_STANAG_BLOCKS - 1 then fileTable[k - 1].forwardLink
                          else fileTable[k - 1].forwardLink + 1) % TWO64,
          reverseLink := (fileTable[k - 1].forwardLink - 1) % TWO64)
      ensures forall j :: 0 <= j < MAX_STANAG_BLOCKS && j != k ==> fileTable[j] == old(fileTable[j])
    {
      var blank := DirBlock(MAGIC, 0xF, 0x00, 0, 512, Fill(32, 0), 0, 0,
                            [BLANK_ENTRY, BLANK_ENTRY, BLANK_ENTRY, BLANK_ENTRY]);
      fileTable[k] := blank;
      if k == 0 {
        fileTable[k] := fileTable[k].(forwardLink := 1, reverseLink := 1);
      } else {
        fileTable[k] := fileTable[k].(forwardLink := (fileTable[k - 1].forwardLink + 1) % TWO64,
                                      reverseLink := (fileTable[k - 1].forwardLink - 1) % TWO64);
      }
      if k == MAX_STANAG_BLOCKS - 1 {
        fileTable[k] := fileTable[k].(forwardLink := fileTable[k - 1].forwardLink,
                                      reverseLink := (fileTable[k - 1].forwardLink - 1) % TWO64);
      }
    }

    method InitializeStanag()
      requires Allocated()
      modifies fileTable
      ensures fileTable[..] == InitTable()
    {
      for k := 0 to MAX_STANAG_BLOCKS
        invariant forall j :: 0 <= j < k ==> fileTable[j] == InitBlock(j)
      {
        InitializeBlock(k);
      }
    }

    method InitializeStanagErase()
      requires Allocated()
      modifies this`currentWriteBlock, fileTable, stanagSwapped, disk`sectors, disk`writePointer
      ensures fileTable[..] == TmatsTable(old(fileTable[..]))
      ensures currentWriteBlock == (RESERVED_BLOCKS + fileTable[0].fileEntries[0].blockCount) % TWO64
      ensures disk.sectors == StoredAll(old(disk.sectors), fileTable[..], MAX_STANAG_BLOCKS)
    {
      hide StoreBlock, SwapBlock;
      KeepFirstEntry();
      currentWriteBlock := (fileTable[0].fileEntries[0].startAddress + fileTable[0].fileEntries[0].blockCount) % TWO64;
      SwapStanag();
      StoreAllBlocks();
    }

    method KeepFirstEntry()
      requires Allocated()
      modifies fileTable
      ensures fileTable[..] == TmatsTable(old(fileTable[..]))
      ensures fileTable[0].fileEntries[0].startAddress == RESERVED_BLOCKS
    {
      hide EmptiedBlock, InitBlock;
      ghost var base := fileTable[0].forwardLink;
      for k := 1 to MAX_STANAG_BLOCKS
        invariant fileTable[0] == old(fileTable[0])
        invariant forall j :: 1 <= j < k ==> fileTable[j] == EmptiedBlock(base, j)
      {
        InitializeBlock(k);
        EmptiedBlockFollows(base, k, fileTable[k - 1]);
      }
      KeepOneEntry();
    }

    method KeepOneEntry()
      requires Allocated()
      modifies fileTable
      ensures fileTable[0] == old(fileTable[0]).(
          forwardLink := 1, reverseLink := 1, numberOfFileEntries := 1, shutDown := 0xFF,
          fileEntries := [old(fileTable[0]).fileEntries[0].(startAddress := RESERVED_BLOCKS),
                          BLANK_ENTRY, BLANK_ENTRY, BLANK_ENTRY])
      ensures forall j :: 1 <= j < MAX_STANAG_BLOCKS ==> fileTable[j] == old(fileTable[j])
    {
      ghost var prior := fileTable[0];
      var kept := fileTable[0].fileEntries[0].(startAddress := RESERVED_BLOCKS);
      fileTable[0] := fileTable[0].(forwardLink := 1, reverseLink := 1, numberOfFileEntries := 1, shutDown := 0xFF,
                                    fileEntries := fileTable[0].fileEntries[0 := kept]);
      for j := 1 to 4
        invariant fileTable[0] == prior.(forwardLink := 1, reverseLink := 1, numberOfFileEntries := 1,
                                         shutDown := 0xFF, fileEntries := fileTable[0].fileEntries)
        invariant fileTable[0].fileEntries[0] == kept
        invariant forall i :: 1 <= i < j ==> fileTable[0].fileEntries[i] == BLANK_ENTRY
        invariant forall i :: 1 <= i < MAX_STANAG_BLOCKS ==> fileTable[i] == old(fileTable[i])
      {
        fileTable[0] := fileTable[0].(fileEntries := fileTable[0].fileEntries[j := BLANK_ENTRY]);
      }
      assert fileTable[0].fileEntries == [kept, BLANK_ENTRY, BLANK_ENTRY, BLANK_ENTRY];
    }

    method StoreAllBlocks()
      requires Allocated()
      requires forall j :: 0 <= j < MAX_STANAG_BLOCKS ==> stanagSwapped[j] == SwapBlock(fileTable[j])
      modifies disk`sectors, disk`writePointer
      ensures disk.sectors == StoredAll(old(disk.sectors), fileTable[..], MAX_STANAG_BLOCKS)
    {
      for k := 0 to MAX_STANAG_BLOCKS
        invariant disk.sectors == StoredAll(old(disk.sectors), fileTable[..], k)
      {
        disk.WriteSeek(SYSTEM_RESERVE_BLOCKS + k);
        var _ := disk.Write(BlockImage(stanagSwapped[k]));
      }
    }

    method SErase(keepTmats: bool, eraseOk: bool)
      requires Allocated()
      modifies this, fileTable, stanagSwapped, disk`sectors, disk`writePointer
      ensures State() == if keepTmats then TmatsErased(old(State())) else Erased(old(State()), eraseOk)
    {
      if !keepTmats {
        currentWriteBlock := RESERVED_BLOCKS;
        currentFileNumber := 0;
        currentFileIndex := 0;
        isOpen := false;
        InitializeStanag();
        disk.Erase(eraseOk);
        SwapStanag();
      } else {
        currentFileNumber := 1;
        currentFileIndex := 1;
        isOpen := false;
        InitializeStanagErase();
      }
    }

    /* ---------- mounting ---------- */

    method LoadTable() returns (ok: bool)
      requires Allocated()
      modifies fileTable, stanagSwapped, disk`readPointer
      ensures ok <==> DirectoryReadable(disk.sectors, disk.readFaults)
                      && BlockFromImage(disk.sectors[SYSTEM_RESERVE_BLOCKS]).magicNumber == MAGIC
      ensures ok ==> fileTable[..] == LoadAll(disk.sectors)
    {
      hide SwapBlock, BlockFromImage;
      disk.ReadSeek(SYSTEM_RESERVE_BLOCKS);
      for i := 0 to MAX_STANAG_BLOCKS
        invariant disk.readPointer == SYSTEM_RESERVE_BLOCKS + i
        invariant forall a :: SYSTEM_RESERVE_BLOCKS <= a < SYSTEM_RESERVE_BLOCKS + i ==>
          Readable(disk.sectors, disk.readFaults, a)
        invariant i > 0 ==> SYSTEM_RESERVE_BLOCKS + i <= |disk.sectors|
        invariant forall j :: 0 <= j < i ==> fileTable[j] == BlockFromImage(disk.sectors[SYSTEM_RESERVE_BLOCKS + j])
      {
        var r := disk.Read();
        if r.NoData? {
          assert !Readable(disk.sectors, disk.readFaults, SYSTEM_RESERVE_BLOCKS + i);
          return false;
        }
        fileTable[i] := BlockFromImage(r.sector);
      }
      forall a | 1 <= a < RESERVED_BLOCKS ensures a !in disk.readFaults {
        assert Readable(disk.sectors, disk.readFaults, a);
      }
      assert fileTable[0] == BlockFromImage(disk.sectors[SYSTEM_RESERVE_BLOCKS]);
      if fileTable[0].magicNumber != MAGIC {
        return false;
      }
      SwapStanag();
      assert forall j :: 0 <= j < MAX_STANAG_BLOCKS ==>
        stanagSwapped[j] == LoadBlock(disk.sectors[SYSTEM_RESERVE_BLOCKS + j]);
      forall j | 0 <= j < MAX_STANAG_BLOCKS {
        fileTable[j] := stanagSwapped[j];
      }
      ok := true;
    }

    // Counts the files and sets the cursor behind the last one.
    method CountFiles()
      requires Allocated()
      modifies this`currentFileNumber, this`currentWriteBlock
      ensures currentFileNumber == CountTo(fileTable[..], FirstEmpty(fileTable[..], 0))
      ensures currentWriteBlock == if FirstEmpty(fileTable[..], 0) == MAX_STANAG_BLOCKS then old(currentWriteBlock)
                                   else RecoveredWriteBlock(fileTable[..])
    {
      ghost var table := fileTable[..];
      currentFileNumber := 0;
      var j := 0;
      while j < MAX_STANAG_BLOCKS
        invariant 0 <= j <= MAX_STANAG_BLOCKS
        invariant currentFileNumber == CountTo(table, j)
        invariant FirstEmpty(table, j) == FirstEmpty(table, 0)
        invariant currentWriteBlock == old(currentWriteBlock)
      {
        if fileTable[j].numberOfFileEntries == 0 {
          if j == 0 {
            currentWriteBlock := RESERVED_BLOCKS;
          } else {
            CountPositive(table, j);
            var slot := (currentFileNumber - 1) % 4;
            currentWriteBlock := (fileTable[j - 1].fileEntries[slot].startAddress
                                  + fileTable[j - 1].fileEntries[slot].blockCount) % TWO64;
          }
          break;
        }
        currentFileNumber := currentFileNumber + fileTable[j].numberOfFileEntries;
        j := j + 1;
      }
    }

    method IndexFiles()
      requires Allocated()
      modifies this`currentFileIndex
      ensures currentFileIndex == old(currentFileIndex) + CountTo(fileTable[..], MAX_STANAG_BLOCKS)
    {
      for k := 0 to MAX_STANAG_BLOCKS
        invariant currentFileIndex == old(currentFileIndex) + CountTo(fileTable[..], k)
      {
        for i := 0 to fileTable[k].numberOfFileEntries
          invariant currentFileIndex == old(currentFileIndex) + CountTo(fileTable[..], k) + i
        {
          currentFileIndex := currentFileIndex + 1;
        }
      }
    }

    // Looks for a node file behind every entry.
    method FindNodeFiles() returns (ok: bool, numBlock: U32)
      requires Allocated()
      requires forall j :: 0 <= j < MAX_STANAG_BLOCKS ==> fileTable[j].numberOfFileEntries <= 4
      modifies nodeList, disk`readPointer
      ensures Probe(fileTable[..], disk.sectors, disk.readFaults, 0, Probed(true, old(nodeList[..]), 0))
           == Probed(ok, nodeList[..], numBlock)
    {
      hide IsNodeFile, NodeCount, Probe;
      ghost var table, sectors, faults := fileTable[..], disk.sectors, disk.readFaults;
      ghost var all := Probe(table, sectors, faults, 0, Probed(true, nodeList[..], 0));
      numBlock := 0;
      for k := 0 to MAX_STANAG_BLOCKS
        invariant fileTable[..] == table
        invariant Probe(table, sectors, faults, 4 * k, Probed(true, nodeList[..], numBlock)) == all
      {
        for i := 0 to fileTable[k].numberOfFileEntries
          invariant fileTable[..] == table
          invariant Probe(table, sectors, faults, 4 * k + i, Probed(true, nodeList[..], numBlock)) == all
        {
          ProbeSlot(table, sectors, faults, k, i, Probed(true, nodeList[..], numBlock));
          var block := (fileTable[k].fileEntries[i].startAddress + fileTable[k].fileEntries[i].blockCount)
                       % 0x1_0000_0000;
          disk.ReadSeek(block);
          var r := disk.Read();
          if r.NoData? {
            return false, numBlock;
          }
          if IsNodeFile(r.sector) {
            nodeList[i + k * 4] := block;
            numBlock := NodeCount(r.sector);
          }
        }
        SkipSlots(table, sectors, faults, k, table[k].numberOfFileEntries, Probed(true, nodeList[..], numBlock));
      }
      ProbeDone(table, sectors, faults, Probed(true, nodeList[..], numBlock));
      ok := true;
    }

    // FileRetrieveFileTable.  Reads past the last slot of a block that claims
    // more than four entries are not modelled.
    method FileRetrieveFileTable(probe: bool) returns (ok: bool)
      requires Allocated()
      requires probe && DirectoryReadable(disk.sectors, disk.readFaults) ==>
        forall j :: 0 <= j < MAX_STANAG_BLOCKS ==> LoadAll(disk.sectors)[j].numberOfFileEntries <= 4
      requires currentWriteBlock == RESERVED_BLOCKS && currentFileNumber == currentFileIndex == 0
      requires !isOpen
      modifies this, fileTable, stanagSwapped, nodeList, disk`readPointer
      ensures ok ==> State() == Mounted(old(State()), disk.readFaults, probe)
      ensures totalAvailableBlocks == old(totalAvailableBlocks)
      ensures !ok ==> State().(table := InitTable()) == Mounted(old(State()), disk.readFaults, probe)
    {
      hide LoadAll, Probe, BlockFromImage, CountTo, FirstEmpty, NodeReserve;
      ok := LoadTable();
      if !ok {
        return;
      }
      CountFiles();
      IndexFiles();
      if probe {
        var numBlock: U32;
        ok, numBlock := FindNodeFiles();
        if !ok {
          return;
        }
        ReserveNodes(numBlock);
      }
      disk.ReadSeek(RESERVED_BLOCKS);
    }

    // FileRetrieveFileTable, behind the search for node files.
    method ReserveNodes(numBlock: U32)
      modifies this`currentWriteBlock
      ensures currentWriteBlock == (old(currentWriteBlock) + NodeReserve(numBlock)) % TWO64
    {
      if Int32(numBlock) > 0 {
        var size := PaddedSize(numBlock);
        currentWriteBlock := (currentWriteBlock + size / 512) % TWO64;
      }
    }

    // sinit, behind a successful connect.
    method SInit(probe: bool, totalBlocks: U32)
      requires Allocated()
      requires probe && DirectoryReadable(disk.sectors, disk.readFaults) ==>
        forall j :: 0 <= j < MAX_STANAG_BLOCKS ==> LoadAll(disk.sectors)[j].numberOfFileEntries <= 4
      modifies this, fileTable, stanagSwapped, nodeList, disk`readPointer, disk`recordPointer
      ensures State() == Mounted(old(State()), disk.readFaults, probe)
      ensures totalAvailableBlocks == totalBlocks && disk.recordPointer == currentWriteBlock
    {
      MountedStartsAfresh(State(), disk.readFaults, probe);
      hide Mounted, DirectoryReadable;
      totalAvailableBlocks := totalBlocks;
      currentWriteBlock := RESERVED_BLOCKS;
      currentFileNumber := 0;
      currentFileIndex := 0;
      isOpen := false;
      assert State() == old(State()).(writeBlock := RESERVED_BLOCKS, fileNumber := 0, fileIndex := 0, isOpen := false);
      var ok := FileRetrieveFileTable(probe);
      assert ok ==> State() == Mounted(old(State()), disk.readFaults, probe);
      if !ok {
        InitializeStanag();
      }
      disk.RecordSeek(currentWriteBlock);
    }

    /* ---------- lookups ---------- */

    method GetNumberOfFiles(ghost files: seq<FileEntry>) returns (count: nat)
      requires Allocated() && Holds(fileTable[..], files)
      ensures count == |files|
    {
      count := 0;
      for i := 0 to MAX_STANAG_BLOCKS
        invariant count == if 4 * i <= |files| then 4 * i else |files|
      {
        if fileTable[i].numberOfFileEntries == 0 {
          break;
        }
        count := count + fileTable[i].numberOfFileEntries;
      }
    }

    method GetFileEntry(fileNum: int, ghost files: seq<FileEntry>) returns (status: nat, entry: FileEntry)
      requires Allocated() && Holds(fileTable[..], files)
      ensures status == if 1 <= fileNum <= |files| then 1 else 0
      ensures status == 1 ==> entry == files[fileNum - 1]
    {
      hide Holds;
      ShowsEveryBlock(fileTable[..], files);
      entry := BLANK_ENTRY;
      status := 0;
      var count := 1;
      for j := 0 to MAX_STANAG_BLOCKS
        invariant count == 1 + if 4 * j <= |files| then 4 * j else |files|
        invariant status == 0 && !(1 <= fileNum < count)
      {
        if fileTable[j].numberOfFileEntries == 0 {
          break;
        }
        assert Shows(fileTable[..][j], files, j);
        for i := 0 to fileTable[j].numberOfFileEntries
          invariant count == 4 * j + i + 1
          invariant !(1 <= fileNum < count)
        {
          if fileNum == count {
            return 1, fileTable[j].fileEntries[i];
          }
          count := count + 1;
        }
      }
    }

    method GetBlockFromFileNumber(offset: int, ghost files: seq<FileEntry>) returns (status: int, block: U32)
      requires Allocated() && Holds(fileTable[..], files)
      ensures status == if 1 <= offset <= |files| then 0 else -1
      ensures status == 0 ==> block == files[offset - 1].startAddress % 0x1_0000_0000
    {
      hide Holds;
      ShowsEveryBlock(fileTable[..], files);
      for k := 0 to MAX_STANAG_BLOCKS
        invariant !(1 <= offset <= 4 * k && offset <= |files|)
      {
        assert Shows(fileTable[..][k], files, k);
        for i := 0 to fileTable[k].numberOfFileEntries
          invariant !(1 <= offset <= 4 * k + i && offset <= |files|)
        {
          if offset == i + k * 4 + 1 {
            return 0, fileTable[k].fileEntries[i].startAddress % 0x1_0000_0000;
          }
        }
      }
      return -1, 0;
    }

    // The int the start address is returned as wraps above 2^31.
    method FindFirstInLastFile(ghost files: seq<FileEntry>) returns (bof: int)
      requires Allocated() && Holds(fileTable[..], files)
      ensures bof == StartOfLast(files)
    {
      hide Holds, Int32, Shows, Live, StartOfLast;
      ShowsEveryBlock(fileTable[..], files);
      assert StartOfLast(files[..0]) == RESERVED_BLOCKS by {
        NoLastStart();
      }
      bof := RESERVED_BLOCKS;
      ghost var seen := 0;
      for j := 0 to MAX_STANAG_BLOCKS
        invariant seen == if 4 * j <= |files| then 4 * j else |files|
        invariant bof == StartOfLast(files[..seen])
      {
        assert Shows(fileTable[..][j], files, j);
        LastShown(fileTable[j], files, j);
        if fileTable[j].numberOfFileEntries == 0 {
          break;
        }
        var i := CountEntries(j);
        bof := Int32(fileTable[j].fileEntries[i - 1].startAddress);
        seen := 4 * j + i;
      }
      assert files[..seen] == files;
    }

    // The loop without a body.
    method CountEntries(j: nat) returns (i: nat)
      requires Allocated() && j < MAX_STANAG_BLOCKS
      ensures i == fileTable[j].numberOfFileEntries
    {
      i := 0;
      while i < fileTable[j].numberOfFileEntries
        invariant i <= fileTable[j].numberOfFileEntries
      {
        i := i + 1;
      }
    }

    // The test for a negative difference of two unsigned numbers never holds.
    method SDisk() returns (totalDiskBlocks: U32, blocksUsed: U32)
      ensures blocksUsed == (currentWriteBlock + numberOfBlocksWritten) % 0x1_0000_0000
      ensures totalDiskBlocks == (totalAvailableBlocks - RESERVED_BLOCKS) % 0x1_0000_0000
    {
      blocksUsed := (currentWriteBlock + numberOfBlocksWritten) % 0x1_0000_0000;
      var difference := (totalAvailableBlocks - RESERVED_BLOCKS) % 0x1_0000_0000;
      totalDiskBlocks := difference;
    }
  }

  lemma ClosingBytesTwice(total: U64, fill: nat, btmFill: U32, blocksRecorded: U32)
    ensures ClosingBytes((total - fill) % TWO64, 0, btmFill, blocksRecorded)
         == ClosingBytes(total, fill, btmFill, blocksRecorded)
  {
  }

  // Each emptied block numbers on from the one before.
  lemma EmptiedBlockFollows(base: U64, k: nat, prior: DirBlock)
    requires 0 < k < MAX_STANAG_BLOCKS
    requires if k == 1 then prior.forwardLink == base else prior == EmptiedBlock(base, k - 1)
    ensures EmptiedBlock(base, k) == InitBlock(k).(
        forwardLink := (if k == MAX_STANAG_BLOCKS - 1 then prior.forwardLink else prior.forwardLink + 1) % TWO64,
        reverseLink := (prior.forwardLink - 1) % TWO64)
  {
    hide InitBlock;
    PriorLink(base, k, prior);
    Wrap(base + k - 1);
  }

  lemma PriorLink(base: U64, k: nat, prior: DirBlock)
    requires 0 < k < MAX_STANAG_BLOCKS
    requires if k == 1 then prior.forwardLink == base else prior == EmptiedBlock(base, k - 1)
    ensures prior.forwardLink == (base + k - 1) % TWO64
  {
    hide InitBlock;
  }

  lemma Wrap(x: int)
    requires -1 <= x < 2 * TWO64 - 1
    ensures x % TWO64 % TWO64 == x % TWO64
    ensures (x % TWO64 + 1) % TWO64 == (x + 1) % TWO64
    ensures (x % TWO64 - 1) % TWO64 == (x - 1) % TWO64
  {
  }

  // Start of the last file as an int; the first data block when there is none.
  function StartOfLast(files: seq<FileEntry>): int {
    if files == [] then RESERVED_BLOCKS else Int32(files[|files| - 1].startAddress)
  }

  lemma NoLastStart()
    ensures StartOfLast([]) == RESERVED_BLOCKS
  {
  }

  lemma LastShown(block: DirBlock, files: seq<FileEntry>, j: nat)
    requires Shows(block, files, j) && 4 * j <= MAX_NUM_FILES
    ensures var n := block.numberOfFileEntries;
      n <= 4 && (4 * j <= |files| ==> 4 * j + n == if 4 * (j + 1) <= |files| then 4 * (j + 1) else |files|)
      && (|files| <= 4 * j <==> n == 0)
      && (n > 0 ==> StartOfLast(files[..4 * j + n]) == Int32(block.fileEntries[n - 1].startAddress))
  {
    hide Int32;
  }

  lemma WholeBlocksOf(size: nat)
    ensures 512 * ((size + 511) / 512) == if size % 512 != 0 then size + (512 - size % 512) else size
  {
    var q, r := size / 512, size % 512;
    assert size == 512 * q + r;
    if r != 0 {
      assert size + 511 == 512 * (q + 1) + (r - 1);
    }
  }

  // A 64-bit byte counter after n more bytes.
  function AddBytes(total: U64, n: nat): U64 {
    (total + n) % TWO64
  }

  lemma AddBytesZero(total: U64)
    ensures AddBytes(total, 0) == total
  {
  }

  lemma AddBytesTwice(total: U64, m: nat, n: nat)
    ensures AddBytes(AddBytes(total, m), n) == AddBytes(total, m + n)
  {
  }

  // The first block counts twice.
  lemma BytesOfNodeFile(total: U64, connected: bool, blocks: nat)
    ensures AddBytes(AddBytes(total, if connected then 512 else 0), if connected then 512 * blocks else 0)
         == (total + if connected then 512 * (1 + blocks) else 0) % TWO64
  {
  }

  lemma MountedStartsAfresh(v: Vol, faults: set<nat>, probe: bool)
    requires |v.nodeList| == MAX_NUM_FILES
    ensures Mounted(v, faults, probe)
         == Mounted(v.(writeBlock := RESERVED_BLOCKS, fileNumber := 0, fileIndex := 0, isOpen := false), faults, probe)
  {
    hide Probe, LoadAll, FirstEmpty, CountTo, RecoveredWriteBlock, BlockFromImage, DirectoryReadable, InitTable;
  }

  lemma {:induction false} ProbeDone(table: seq<DirBlock>, sectors: seq<Sector>, faults: set<nat>, so: Probed)
    requires |table| == MAX_STANAG_BLOCKS && |so.nodeList| == MAX_NUM_FILES
    ensures Probe(table, sectors, faults, MAX_NUM_FILES, so) == so
  {
  }

  // One turn of the probing loop.
  lemma {:induction false} ProbeSlot(table: seq<DirBlock>, sectors: seq<Sector>, faults: set<nat>, k: nat, i: nat,
                                     so: Probed)
    requires |table| == MAX_STANAG_BLOCKS && k < MAX_STANAG_BLOCKS && |so.nodeList| == MAX_NUM_FILES
    requires i < table[k].numberOfFileEntries && i < 4
    ensures var a := End(table[k].fileEntries[i]) % 0x1_0000_0000;
      Probe(table, sectors, faults, 4 * k + i, so)
      == (if !Readable(sectors, faults, a) then so.(ok := false)
          else if IsNodeFile(sectors[a]) then
            Probe(table, sectors, faults, 4 * k + i + 1,
                  so.(nodeList := so.nodeList[4 * k + i := a], numBlock := NodeCount(sectors[a])))
          else Probe(table, sectors, faults, 4 * k + i + 1, so))
  {
    hide IsNodeFile, NodeCount;
    assert (4 * k + i) / 4 == k && (4 * k + i) % 4 == i;
  }

  lemma {:induction false} SkipSlots(table: seq<DirBlock>, sectors: seq<Sector>, faults: set<nat>, k: nat, i: nat,
                                     so: Probed)
    requires |table| == MAX_STANAG_BLOCKS && k < MAX_STANAG_BLOCKS && |so.nodeList| == MAX_NUM_FILES
    requires table[k].numberOfFileEntries <= i <= 4
    ensures Probe(table, sectors, faults, 4 * k + i, so) == Probe(table, sectors, faults, 4 * k + 4, so)
    decreases 4 - i
  {
    if i < 4 {
      assert (4 * k + i) / 4 == k && (4 * k + i) % 4 == i;
      SkipSlots(table, sectors, faults, k, i + 1, so);
    }
  }
}
