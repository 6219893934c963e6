// The cartridge of M23_disk_io.c: one-block reads and writes at two separate
// pointers.  A successful read advances the read pointer; a write advances
// nothing and always reports 512 bytes.
module DiskIo {
  import opened DirectoryFormat

  datatype ReadResult = NoData | Data(sector: Sector)

  predicate Readable(sectors: seq<Sector>, faults: set<nat>, a: nat) {
    a < |sectors| && a !in faults
  }

  function ReadAt(sectors: seq<Sector>, faults: set<nat>, a: nat): ReadResult {
    if Readable(sectors, faults, a) then Data(sectors[a]) else NoData
  }

  // A write beyond the medium is lost, but reports success all the same.
  function WriteAt(sectors: seq<Sector>, a: nat, s: Sector): (r: seq<Sector>)
    ensures |r| == |sectors|
  {
    if a < |sectors| then sectors[a := s] else sectors
  }

  class Cartridge {
    var sectors: seq<Sector>
    var readFaults: set<nat>   // blocks whose reads end with a bad status
    var connected: bool
    var readPointer: nat
    var writePointer: nat
    var recordPointer: nat

    constructor (sectors: seq<Sector>, readFaults: set<nat>, connected: bool)
      ensures this.sectors == sectors && this.readFaults == readFaults && this.connected == connected
    {
      this.sectors, this.readFaults, this.connected := sectors, readFaults, connected;
      readPointer, writePointer, recordPointer := 0, 0, 0;
    }

    method ReadSeek(startBlock: nat)
      modifies this`readPointer
      ensures readPointer == startBlock
    {
      readPointer := startBlock;
    }

    method WriteSeek(startBlock: nat)
      modifies this`writePointer
      ensures writePointer == startBlock
    {
      writePointer := startBlock;
    }

    method RecordSeek(startBlock: nat)
      modifies this`recordPointer
      ensures recordPointer == startBlock
    {
      recordPointer := startBlock;
    }

    method Read() returns (r: ReadResult)
      modifies this`readPointer
      ensures r == ReadAt(sectors, readFaults, old(readPointer))
      ensures readPointer == if r.Data? then old(readPointer) + 1 else old(readPointer)
    {
      r := ReadAt(sectors, readFaults, readPointer);
      if r.Data? {
        readPointer := readPointer + 1;
      }
    }

    method Write(s: Sector) returns (bytesWritten: nat)
      modifies this`sectors
      ensures sectors == WriteAt(old(sectors), writePointer, s)
      ensures bytesWritten == 512
    {
      sectors := WriteAt(sectors, writePointer, s);
      bytesWritten := 512;
    }

    // M2x_EraseCartridge; an erased cartridge reads as zeros.
    method Erase(ok: bool)
      modifies this`sectors
      ensures sectors == if ok then seq(|old(sectors)|, _ => Fill(512, 0)) else old(sectors)
    {
      if ok {
        sectors := seq(|sectors|, _ => Fill(512, 0));
      }
    }
  }
}
