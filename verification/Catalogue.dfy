// What the directory says about each recording, field by field: a catalogue
// kept from the operations alone, in memory and on the cartridge, and the
// entries that show it.
module Catalogue {
  import opened Bytes
  import opened DirectoryFormat
  import opened Directory
  import opened Volume
  import opened VolumeInvariant
  import opened Recovery
  import opened Runs
  import opened Backing

  // One recording: as it was opened, and as it was last published.
  datatype Card = Card(name: Text56, date: Text8, time: Text8, start: nat, bytes: U64, closed: Text8)

  // The entry names the recording and when it was made (time type 1, unused
  // bytes all ones), where it starts, and the bytes and whole blocks published.
  predicate Shows(e: FileEntry, c: Card) {
    && e.fileName == c.name && e.createDate == c.date && e.createTime == c.time && e.closeTime == c.closed
    && e.timeType == 1 && e.reserved == [0xFF, 0xFF, 0xFF, 0xFF, 0xFF, 0xFF, 0xFF]
    && e.startAddress == c.start && e.size == c.bytes
    && 512 * (e.blockCount - 1) < c.bytes <= 512 * e.blockCount
  }

  ghost predicate ShowsAll(files: seq<FileEntry>, cards: seq<Card>) {
    |files| == |cards| && forall k :: 0 <= k < |files| ==> Shows(files[k], cards[k])
  }

  datatype Shelf = Shelf(memory: seq<Card>, cartridge: seq<Card>)

  // The last recording, published again.
  function Again(cards: seq<Card>, bytes: U64, time: Text8): (r: seq<Card>)
    ensures |r| == |cards|
  {
    if cards == [] then []
    else cards[|cards| - 1 := cards[|cards| - 1].(bytes := bytes, closed := time)]
  }

  function Written(s: Shelf, bytes: U64, time: Text8, connected: bool): Shelf {
    var memory := Again(s.memory, bytes, time);
    Shelf(memory, if connected then memory else s.cartridge)
  }

  // The first recording alone, moved to the first data block.
  function Kept(cards: seq<Card>): seq<Card> {
    if cards == [] then [] else [cards[0].(start := 129)]
  }

  // What is on the cartridge when power is lost there: an update in progress
  // has stored the blocks in front of the last one.
  function CutCards(s: Shelf, cut: Cut): seq<Card> {
    match cut
    case AtRest => s.cartridge
    case InUpdate(_, _) => MixedCards(s)
    case InErase(k) => if k == 0 then s.cartridge else Kept(s.memory)
  }

  function MixedCards(s: Shelf): seq<Card> {
    var full := if s.memory == [] then 0 else (|s.memory| - 1) / 4 * 4;
    s.memory[..full] + if |s.cartridge| >= full then s.cartridge[full..] else []
  }

  // Opened at the cursor, when no file is open.
  function Entered(s: Shelf, name: Text56, date: Text8, time: Text8, isOpen: bool, cursor: nat): Shelf {
    if isOpen then s else s.(memory := s.memory + [Card(name, date, time, cursor, 0, time)])
  }

  function SettledBytes(bytes: U64, fill: nat, btmFill: U32, blocksRecorded: U32): U64 {
    var rest := (bytes - fill) % TWO64;
    if rest % 32768 != 0 then rest else (512 * blocksRecorded - btmFill) % TWO64
  }

  function Filed(s: Shelf, op: Op, isOpen: bool, cursor: nat): Shelf {
    match op
    case Open(name, date, time) => Entered(s, name, date, time, isOpen, cursor)
    case Publish(offset, pktLen, present, connected, time) =>
      if present then Written(s, (offset + pktLen) % TWO64, time, connected) else s
    case PublishAll(blocks, present, connected, time) =>
      if present then Written(s, 512 * blocks, time, connected) else s
    case SClose(_, fill, btmFill, blocksRecorded, time) =>
      var bytes := if s.memory == [] then 0 else s.memory[|s.memory| - 1].bytes;
      Written(s, SettledBytes(bytes, fill, btmFill, blocksRecorded), time, true)
    case Erase(ok) => Shelf([], if ok then [] else s.cartridge)
    case EraseKeepingTmats => Shelf(Kept(s.memory), Kept(s.memory))
    case PowerLoss(cut, _) => Shelf(CutCards(s, cut), CutCards(s, cut))
    case _ => s
  }

  /* ---------- lists ---------- */

  lemma NewShown(name: Text56, date: Text8, time: Text8, start: U64)
    ensures Shows(NewEntry(name, start, date, time), Card(name, date, time, start, 0, time))
  {
  }

  lemma UpdatedShown(e: FileEntry, c: Card, bytes: U64, time: Text8)
    requires Shows(e, c)
    ensures Shows(UpdatedEntry(e, bytes, time), c.(bytes := bytes, closed := time))
  {
  }

  lemma PublishedShown(files: seq<FileEntry>, cards: seq<Card>, bytes: U64, time: Text8)
    requires files != [] && ShowsAll(files, cards)
    ensures ShowsAll(Published(files, bytes, time), Again(cards, bytes, time))
  {
    hide Shows, UpdatedEntry;
    UpdatedShown(files[|files| - 1], cards[|cards| - 1], bytes, time);
    assert forall k :: 0 <= k < |files| ==> Shows(files[k], cards[k]);
  }

  lemma MovedShown(e: FileEntry, c: Card)
    requires Shows(e, c)
    ensures Shows(e.(startAddress := RESERVED_BLOCKS), c.(start := 129))
  {
  }

  // The update changes the last entry only.
  lemma MixedShown(stored: seq<FileEntry>, files: seq<FileEntry>, published: seq<FileEntry>, s: Shelf, b: nat)
    requires LastIn(files, b) && ShowsAll(files, s.memory) && ShowsAll(stored, s.cartridge)
    requires |published| == |files| && forall k :: 0 <= k < |files| - 1 ==> published[k] == files[k]
    ensures ShowsAll(Mixed(stored, published, b), MixedCards(s))
  {
    hide Shows;
    var full, mixed, cards := (|s.memory| - 1) / 4 * 4, Mixed(stored, published, b), MixedCards(s);
    assert full == 4 * b;
    forall k | 0 <= k < |mixed| ensures Shows(mixed[k], cards[k]) {
      if k < full {
        assert mixed[k] == files[k] && cards[k] == s.memory[k];
      } else {
        assert mixed[k] == stored[k] && cards[k] == s.cartridge[k];
      }
    }
  }

  /* ---------- every step ---------- */

  // The list in memory shows the catalogue's, and so does the one on the
  // cartridge.
  ghost predicate InCatalogue(v: Vol, s: Shelf) {
    ShowsAll(Files(v), s.memory) && ShowsAll(Stored(v), s.cartridge)
  }

  // The file open now is the last one, and its size is what was published.
  lemma OpenCard(v: Vol, s: Shelf)
    requires Sound(v) && v.isOpen && ShowsAll(Files(v), s.memory)
    ensures s.memory != [] && s.memory[|s.memory| - 1].bytes == v.totalBytes
  {
    hide Holds, Files;
    assert Shows(Files(v)[|Files(v)| - 1], s.memory[|s.memory| - 1]);
  }

  lemma NextFilesShown(probe: bool, v: Vol, s: Shelf, op: Op)
    requires Sound(v) && Enabled(probe, v, op) && ShowsAll(Files(v), s.memory) && !op.PowerLoss?
    requires op.Publish? || op.PublishAll? || op.SClose? || op.EraseKeepingTmats? ==> Files(v) != []
    ensures ShowsAll(NextFiles(v, op), Filed(s, op, v.isOpen, v.writeBlock).memory)
  {
    hide Sound, Files, Published, Shows, NewEntry;
    match op
    case Open(name, date, time) => NewShown(name, date, time, v.writeBlock);
    case Publish(offset, pktLen, present, _, time) =>
      PublishedShown(Files(v), s.memory, (offset + pktLen) % TWO64, time);
    case PublishAll(blocks, present, _, time) => PublishedShown(Files(v), s.memory, blocks * 512, time);
    case SClose(_, fill, btmFill, blocks, time) =>
      OpenCard(v, s);
      PublishedShown(Files(v), s.memory, ClosingBytes(v.totalBytes, fill, btmFill, blocks), time);
    case EraseKeepingTmats => MovedShown(Files(v)[0], s.memory[0]);
    case _ =>
  }

  lemma StepShowsMemory(probe: bool, v: Vol, s: Shelf, op: Op)
    requires Sound(v) && Enabled(probe, v, op) && ShowsAll(Files(v), s.memory) && !op.PowerLoss?
    ensures ShowsAll(Files(Step(probe, v, op)), Filed(s, op, v.isOpen, v.writeBlock).memory)
  {
    hide *;
    StepKeepsSound(probe, v, op);
    MadeFiles(Step(probe, v, op), NextFiles(v, op));
    NextFilesShown(probe, v, s, op);
  }

  lemma MadeFiles(w: Vol, files: seq<FileEntry>)
    requires Makes(w, files)
    ensures Files(w) == files
  {
  }

  lemma CutShown(v: Vol, s: Shelf, cut: Cut)
    requires InCatalogue(v, s)
    requires cut.InUpdate? ==> Files(v) != [] && LastIn(Files(v), v.fileNumber / 4)
    requires cut.InErase? ==> Files(v) != []
    ensures ShowsAll(CutList(v, cut), CutCards(s, cut))
  {
    hide Files, Stored, Published, Mixed, MixedCards, Shows;
    match cut
    case AtRest =>
    case InUpdate(total, time) =>
      PublishedShape(Files(v), total, time);
      MixedShown(Stored(v), Files(v), Published(Files(v), total, time), s, v.fileNumber / 4);
    case InErase(k) => MovedShown(Files(v)[0], s.memory[0]);
  }

  // What an operation stores, when it does store, is what it makes.
  lemma StoredIsFiled(v: Vol, s: Shelf, op: Op)
    requires InCatalogue(v, s)
    requires WritesBack(op) || op.EraseKeepingTmats? ==> Files(v) != []
    requires op.PowerLoss? && op.cut.InUpdate? ==> Files(v) != [] && LastIn(Files(v), v.fileNumber / 4)
    requires op.PowerLoss? && op.cut.InErase? ==> Files(v) != []
    requires op.Erase? ==> op.ok || Stored(v) == []
    ensures LeavesDirectory(op) ==>
      NextStored(v, op) == Stored(v) && Filed(s, op, v.isOpen, v.writeBlock).cartridge == s.cartridge
    ensures !LeavesDirectory(op) ==>
      Filed(s, op, v.isOpen, v.writeBlock).cartridge == Filed(s, op, v.isOpen, v.writeBlock).memory
    ensures op.PowerLoss? ==> ShowsAll(NextStored(v, op), Filed(s, op, v.isOpen, v.writeBlock).cartridge)
  {
    hide Files, Stored, Published, Shows, CutList, CutCards, Again;
    if op.PowerLoss? {
      CutShown(v, s, op.cut);
    }
  }

  lemma StepIsFiled(probe: bool, v: Vol, s: Shelf, op: Op)
    requires Sound(v) && Backed(v) && Enabled(probe, v, op) && Reaches(v, op) && InCatalogue(v, s)
    ensures InCatalogue(Step(probe, v, op), Filed(s, op, v.isOpen, v.writeBlock))
  {
    hide *;
    var w, t := Step(probe, v, op), Filed(s, op, v.isOpen, v.writeBlock);
    StepKeepsBacked(probe, v, op);
    ReachedErase(v, op);
    StoredIsFiled(v, s, op);
    Opens(v, s);
    if !op.PowerLoss? {
      StepShowsMemory(probe, v, s, op);
    }
    IsInCatalogue(w, t);
  }

  lemma ReachedErase(v: Vol, op: Op)
    requires Reaches(v, op)
    ensures op.Erase? ==> op.ok || Stored(v) == []
    ensures op.PowerLoss? ==> !LeavesDirectory(op)
  {
  }

  lemma Opens(v: Vol, s: Shelf)
    requires InCatalogue(v, s)
    ensures ShowsAll(Files(v), s.memory) && ShowsAll(Stored(v), s.cartridge)
  {
  }

  lemma IsInCatalogue(v: Vol, s: Shelf)
    requires ShowsAll(Files(v), s.memory) && ShowsAll(Stored(v), s.cartridge)
    ensures InCatalogue(v, s)
  {
  }

  /* ---------- the bytes ---------- */

  // 112 bytes of a directory block that a reader of big-endian integers finds
  // to be this recording, text taken up to its first NUL.
  predicate IsEntry(bytes: seq<Byte>, c: Card)
    requires |bytes| == 112
  {
    && Padded(bytes[..56]) == c.name && FromBigEndian(bytes[56..64]) == c.start
    && 512 * (FromBigEndian(bytes[64..72]) - 1) < c.bytes <= 512 * FromBigEndian(bytes[64..72])
    && FromBigEndian(bytes[72..80]) == c.bytes
    && Padded(bytes[80..88]) == c.date && Padded(bytes[88..96]) == c.time && bytes[96] == 1
    && Padded(bytes[104..]) == c.closed
  }

  // Recording k is entry k % 4 of the block at address 1 + k / 4, and that
  // block says how many entries it has.
  lemma CardIsOnCartridge(v: Vol, s: Shelf, k: nat)
    requires Backed(v) && InCatalogue(v, s) && k < |s.cartridge|
    ensures 1 + k / 4 < |v.sectors|
    ensures var block, at := v.sectors[1 + k / 4], 64 + 112 * (k % 4);
      && IsEntry(block[at..at + 112], s.cartridge[k])
      && FromBigEndian(block[10..12]) == if |s.cartridge| >= 4 * (k / 4) + 4 then 4 else |s.cartridge| % 4
  {
    hide *;
    CardIsLoaded(v, s, k);
    EntryOfSector(v.sectors[1 + k / 4], k % 4, s.cartridge[k]);
    CountOfSector(v.sectors[1 + k / 4]);
  }

  lemma CardIsLoaded(v: Vol, s: Shelf, k: nat)
    requires Backed(v) && InCatalogue(v, s) && k < |s.cartridge|
    ensures 1 + k / 4 < |v.sectors|
    ensures var b := LoadBlock(v.sectors[1 + k / 4]);
      && Shows(b.fileEntries[k % 4], s.cartridge[k])
      && b.numberOfFileEntries == if |s.cartridge| >= 4 * (k / 4) + 4 then 4 else |s.cartridge| % 4
  {
    hide Stored, Files, LoadBlock, Shows;
    assert LoadAll(v.sectors)[k / 4] == LoadBlock(v.sectors[1 + k / 4]);
    assert Shows(Stored(v)[k], s.cartridge[k]);
  }

  lemma CountOfSector(sector: Sector)
    ensures FromBigEndian(sector[10..12]) == LoadBlock(sector).numberOfFileEntries
  {
    hide LoadBlock;
    LoadedHeaderIsBigEndian(sector);
    PowersOf256();
    BigEndianReads(LoadBlock(sector).numberOfFileEntries, 2);
  }

  lemma EntryOfSector(sector: Sector, i: nat, c: Card)
    requires i < 4 && Shows(LoadBlock(sector).fileEntries[i], c)
    ensures IsEntry(sector[64 + 112 * i..64 + 112 * i + 112], c)
  {
    hide LoadBlock, Padded, FromBigEndian, BigEndian, Pow256;
    var e := LoadBlock(sector).fileEntries[i];
    LoadedEntryIsBigEndian(sector, i);
    PowersOf256();
    BigEndianReads(e.startAddress, 8);
    BigEndianReads(e.blockCount, 8);
    BigEndianReads(e.size, 8);
  }

  /* ---------- every run ---------- */

  ghost function FiledRun(probe: bool, v: Vol, s: Shelf, ops: seq<Op>): Shelf
    requires Possible(probe, v, ops)
    decreases |ops|
  {
    if ops == [] then s
    else FiledRun(probe, Step(probe, v, ops[0]), Filed(s, ops[0], v.isOpen, v.writeBlock), ops[1..])
  }

  // Over every run whose steps reach, through restarts and torn updates, both
  // lists show the catalogue, recording by recording and field by field.
  lemma {:induction false} RunIsCatalogued(probe: bool, v: Vol, s: Shelf, ops: seq<Op>)
    requires Sound(v) && Backed(v) && InCatalogue(v, s) && Possible(probe, v, ops) && AllReach(probe, v, ops)
    ensures InCatalogue(Run(probe, v, ops), FiledRun(probe, v, s, ops))
    decreases |ops|
  {
    hide Sound, Enabled, Step, Backed, Reaches, InCatalogue, Filed;
    if ops != [] {
      StepIsSound(probe, v, ops[0]);
      StepKeepsBacked(probe, v, ops[0]);
      StepIsFiled(probe, v, s, ops[0]);
      RunIsCatalogued(probe, Step(probe, v, ops[0]), Filed(s, ops[0], v.isOpen, v.writeBlock), ops[1..]);
    }
  }

  // In memory also over runs whose updates do not reach, while power stays on.
  lemma {:induction false} RunShowsMemory(probe: bool, v: Vol, s: Shelf, ops: seq<Op>)
    requires Sound(v) && ShowsAll(Files(v), s.memory) && Possible(probe, v, ops)
    requires forall i :: 0 <= i < |ops| ==> !ops[i].PowerLoss?
    ensures ShowsAll(Files(Run(probe, v, ops)), FiledRun(probe, v, s, ops).memory)
    decreases |ops|
  {
    hide Sound, Enabled, Step, ShowsAll, Filed, Files;
    if ops != [] {
      StepIsSound(probe, v, ops[0]);
      StepShowsMemory(probe, v, s, ops[0]);
      RunShowsMemory(probe, Step(probe, v, ops[0]), Filed(s, ops[0], v.isOpen, v.writeBlock), ops[1..]);
    }
  }

  // A blank cartridge, mounted, starts with an empty catalogue.
  lemma BlankCatalogue(v: Vol, faults: set<nat>, probe: bool)
    requires |v.sectors| >= RESERVED_BLOCKS && DirectoryReadable(v.sectors, faults)
    requires forall i :: 1 <= i < RESERVED_BLOCKS ==> v.sectors[i] == ZERO_SECTOR
    ensures var w := PowerCycled(v, faults, probe);
      Sound(w) && Backed(w) && !w.isOpen && w.writeBlock == 129 && InCatalogue(w, Shelf([], []))
  {
    hide Sound, Backed, Files, Stored, PowerCycled;
    BlankStart(v, faults, probe);
  }

  lemma {:induction false} FiledFirst(probe: bool, v: Vol, s: Shelf, op: Op, rest: seq<Op>)
    requires Possible(probe, v, [op] + rest)
    ensures Sound(v) && Enabled(probe, v, op) && Possible(probe, Step(probe, v, op), rest)
    ensures FiledRun(probe, v, s, [op] + rest)
         == FiledRun(probe, Step(probe, v, op), Filed(s, op, v.isOpen, v.writeBlock), rest)
  {
    assert ([op] + rest)[0] == op && ([op] + rest)[1..] == rest;
    hide Sound, Enabled, Step, Filed;
  }

  lemma {:induction false} NoneFiled(probe: bool, v: Vol, s: Shelf)
    ensures FiledRun(probe, v, s, []) == s
  {
  }

  function Recorded(name: Text56, date: Text8, time: Text8, offset: U64, pktLen: int, closed: Text8,
                    faults: set<nat>): seq<Op> {
    [Open(name, date, time)]
    + ([Publish(offset, pktLen, true, true, closed)] + ([Stop(true)] + ([PowerLoss(AtRest, faults)] + [])))
  }

  // So a recording that was opened, published and stopped is found again after
  // a loss of power as it was made.
  lemma {:induction false} RecordingComesBack(probe: bool, v: Vol, s: Shelf, name: Text56, date: Text8, time: Text8,
                                              offset: U64, pktLen: int, closed: Text8, faults: set<nat>)
    requires Sound(v) && Backed(v) && InCatalogue(v, s) && !v.isOpen
    requires var ops := Recorded(name, date, time, offset, pktLen, closed, faults);
      Possible(probe, v, ops) && AllReach(probe, v, ops)
    ensures ShowsAll(Files(Run(probe, v, Recorded(name, date, time, offset, pktLen, closed, faults))),
               s.memory + [Card(name, date, time, v.writeBlock, (offset + pktLen) % TWO64, closed)])
  {
    hide Sound, Backed, Enabled, Step, Run, Possible, FiledRun, AllReach, InCatalogue, Shows;
    var ops := Recorded(name, date, time, offset, pktLen, closed, faults);
    RunIsCatalogued(probe, v, s, ops);
    Opens(Run(probe, v, ops), FiledRun(probe, v, s, ops));
    var open, publish, stop := Open(name, date, time), Publish(offset, pktLen, true, true, closed), Stop(true);
    var loss := PowerLoss(AtRest, faults);
    FiledFirst(probe, v, s, open, [publish] + ([stop] + ([loss] + [])));
    var v1, s1 := Step(probe, v, open), Filed(s, open, v.isOpen, v.writeBlock);
    FiledFirst(probe, v1, s1, publish, [stop] + ([loss] + []));
    var v2, s2 := Step(probe, v1, publish), Filed(s1, publish, v1.isOpen, v1.writeBlock);
    FiledFirst(probe, v2, s2, stop, [loss] + []);
    var v3 := Step(probe, v2, stop);
    FiledFirst(probe, v3, s2, loss, []);
    NoneFiled(probe, Step(probe, v3, loss), Filed(s2, loss, v3.isOpen, v3.writeBlock));
  }
}
