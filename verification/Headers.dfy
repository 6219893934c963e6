// The headers of the directory blocks in use: over every run each says that
// it is a directory block of this volume.
module Headers {
  import opened Bytes
  import opened DirectoryFormat
  import opened Directory
  import opened Volume
  import opened VolumeInvariant
  import opened Recovery
  import opened Runs
  import opened TornErase
  import opened Backing
  import opened Links

  // The characters in front of the first NUL.
  function CString(s: seq<Byte>): seq<Byte> {
    if s == [] || s[0] == 0 then [] else [s[0]] + CString(s[1..])
  }

  // strcpy copies them and one NUL, and leaves what is behind.
  lemma {:induction false} CopiedString(dst: seq<Byte>, src: seq<Byte>)
    requires |dst| == |src|
    ensures CString(StrCpy(dst, src)) == CString(src) && |CString(src)| <= |src|
    ensures forall i :: |CString(src)| < i < |dst| ==> StrCpy(dst, src)[i] == dst[i]
  {
    if src != [] && src[0] != 0 {
      CopiedString(dst[1..], src[1..]);
    }
  }

  // "FORTYtwo", revision 15, blocks of 512 bytes, and the volume's name.
  predicate Header(block: DirBlock, name: seq<Byte>) {
    && block.magicNumber == [70, 79, 82, 84, 89, 116, 119, 111] && block.revisionNumber == 15
    && block.currBlock == 512 && CString(block.volumeName) == name
  }

  // Every block that n files need has such a header.
  predicate Headed(table: seq<DirBlock>, n: nat, name: seq<Byte>) {
    forall j :: 0 <= j < |table| && 4 * j < n ==> Header(table[j], name)
  }

  predicate SameHeaders(t: seq<DirBlock>, u: seq<DirBlock>) {
    |t| == |u| && forall j :: 0 <= j < |t| ==> SameHeader(t[j], u[j])
  }

  predicate SameHeader(a: DirBlock, b: DirBlock) {
    a.magicNumber == b.magicNumber && a.revisionNumber == b.revisionNumber && a.currBlock == b.currBlock
    && a.volumeName == b.volumeName
  }

  lemma SameHeadersStayHeaded(t: seq<DirBlock>, u: seq<DirBlock>, n: nat, name: seq<Byte>)
    requires SameHeaders(t, u) && Headed(u, n, name)
    ensures Headed(t, n, name)
  {
    forall j | 0 <= j < |t| && 4 * j < n ensures Header(t[j], name) {
      assert SameHeader(t[j], u[j]) && Header(u[j], name);
    }
  }

  // sopen of file n gives its block a header, with the name of the block in
  // front of it.
  lemma OpenHeads(table: seq<DirBlock>, n: nat, e: FileEntry)
    requires |table| == MAX_STANAG_BLOCKS && n < MAX_FILES && table[n / 4].numberOfFileEntries < 4
    requires Headed(table, n, CString(table[0].volumeName))
    ensures var t := OpenedTable(table, n, e);
      Headed(t, n + 1, CString(table[0].volumeName)) && t[0].volumeName == table[0].volumeName
  {
    var t, b, name := OpenedTable(table, n, e), n / 4, CString(table[0].volumeName);
    hide CString, StrCpy;
    if b > 0 {
      CopiedString(table[b].volumeName, table[b - 1].volumeName);
    }
    forall j | 0 <= j < |t| && 4 * j < n + 1 ensures Header(t[j], name) {
      if j < b {
        assert Header(table[j], name);
      } else {
        assert b > 0 ==> Header(table[b - 1], name);
        assert n % 4 != 0 ==> Header(table[b], name);
      }
    }
  }

  lemma UpdateKeepsHeaders(table: seq<DirBlock>, n: nat, total: U64, time: Text8)
    requires |table| == MAX_STANAG_BLOCKS && n < MAX_NUM_FILES && 1 <= table[n / 4].numberOfFileEntries <= 4
    ensures SameHeaders(UpdatedTable(table, n, total, time), table)
  {
  }

  lemma BlankKeepsHeaders(table: seq<DirBlock>, n: nat)
    requires |table| == MAX_STANAG_BLOCKS && n < MAX_NUM_FILES
    ensures SameHeaders(BlankedTable(table, n), table)
  {
  }

  lemma HeaderSurvives(block: DirBlock)
    ensures SameHeader(LoadBlock(StoreBlock(block)), block)
    ensures LoadBlock(StoreBlock(block)).shutDown == block.shutDown
  {
    LoadsWhatWasStored(block);
  }

  // A table made from scratch: every block without entries and name, linked
  // to itself - but for the last one, which links to the block before.
  lemma FreshTable(j: nat)
    requires j < 128
    ensures var b := InitTable()[j];
      && Header(b, []) && b.numberOfFileEntries == 0 && b.shutDown == 0x00
      && b.forwardLink == (if j < 127 then j + 1 else j) && b.reverseLink == (if j == 0 then 1 else j - 1)
      && forall i :: 0 <= i < 4 ==> b.fileEntries[i].fileName == Fill(56, 0xFF)
                                    && b.fileEntries[i].size == 0xFFFF_FFFF_FFFF_FFFF
  {
    assert Fill(32, 0)[0] == 0;
    assert CString(Fill(32, 0)) == [];
  }

  // The erase that keeps the first file empties all other blocks like that.
  lemma EmptiedTable(table: seq<DirBlock>, j: nat)
    requires |table| == 128 && 0 < j < 128
    ensures var b := TmatsTable(table)[j];
      Header(b, []) && b.numberOfFileEntries == 0 && b.shutDown == 0x00
  {
    FreshTable(j);
    assert InitTable()[j] == InitBlock(j);
  }

  // A close changes nothing in the table but the name behind the last entry,
  // if that does not fill its block.
  lemma CloseBlanksTheNextName(table: seq<DirBlock>, files: seq<FileEntry>, j: nat, i: nat)
    requires Holds(table, files) && files != [] && |files| < MAX_NUM_FILES && j < 128 && i < 4
    ensures var t, n := BlankedTable(table, |files| - 1), |files|;
      && |t| == 128 && SameHeader(t[j], table[j]) && t[j].shutDown == table[j].shutDown
      && t[j].numberOfFileEntries == table[j].numberOfFileEntries
      && t[j].fileEntries[i] == (if n % 4 != 0 && j == n / 4 && i == n % 4
                                 then table[j].fileEntries[i].(fileName := Fill(56, 0xFF))
                                 else table[j].fileEntries[i])
  {
  }

  /* ---------- in memory ---------- */

  function NameOf(v: Vol): seq<Byte> {
    if v.table == [] then [] else CString(v.table[0].volumeName)
  }

  ghost predicate MemoryHeaded(v: Vol) {
    Headed(v.table, |Files(v)|, NameOf(v))
  }

  ghost predicate CartridgeHeaded(v: Vol) {
    |v.sectors| >= RESERVED_BLOCKS && Headed(LoadAll(v.sectors), |Stored(v)|, NameOf(v))
  }

  lemma StepKeepsHeaders(probe: bool, v: Vol, op: Op)
    requires Sound(v) && Enabled(probe, v, op) && KeepsLinks(op)
    ensures SameHeaders(Step(probe, v, op).table, v.table)
  {
    EnabledSteps(probe, v, op);
    assert v.isOpen;
    hide Sound, UpdatedTable, BlankedTable, StoredCurrent, SClosed, NodeSectors, SameHeaders, Blocks, ClosingBytes,
         CanUpdate, Links.SameLinks;
    SameHeadersReflexive(v.table);
    match op
    case Publish(offset, pktLen, _, _, time) => UpdateHeaders(v, (offset + pktLen) % TWO64, time);
    case PublishAll(blocks, _, _, time) => UpdateHeaders(v, blocks * 512, time);
    case SClose(increment, fill, btmFill, blocks, time) => SClosedHeaders(v, increment, fill, btmFill, blocks, time);
    case Stop(increment) => ClosedHeaders(v, increment);
    case StopWithNodes(increment, _, _, _) => ClosedHeaders(v, increment);
    case Capture(_, _) =>
  }

  lemma SameHeadersReflexive(t: seq<DirBlock>)
    ensures SameHeaders(t, t)
  {
  }

  lemma UpdateHeaders(v: Vol, total: U64, time: Text8)
    requires CanUpdate(v)
    ensures SameHeaders(UpdatedTable(v.table, v.fileNumber, total, time), v.table)
  {
    UpdateKeepsHeaders(v.table, v.fileNumber, total, time);
  }

  lemma ClosedHeaders(v: Vol, increment: bool)
    requires |v.table| == MAX_STANAG_BLOCKS && v.fileNumber < MAX_NUM_FILES
    ensures SameHeaders(EmergencyClosed(v, increment).table, v.table)
  {
    BlankKeepsHeaders(v.table, v.fileNumber);
    hide BlankedTable, SameHeaders;
  }

  lemma SClosedHeaders(v: Vol, increment: bool, fill: nat, btmFill: U32, blocksRecorded: U32, time: Text8)
    requires CanUpdate(v) && Sound(v) && v.isOpen
    ensures SameHeaders(SClosed(v, increment, fill, btmFill, blocksRecorded, true, time).table, v.table)
  {
    var t := BlankedTable(v.table, v.fileNumber);
    var total := ClosingBytes(v.totalBytes, fill, btmFill, blocksRecorded);
    BlankKeepsHeaders(v.table, v.fileNumber);
    BlankedTableHolds(v.table, Files(v));
    UpdateKeepsHeaders(t, v.fileNumber, total, time);
    hide Sound, UpdatedTable, BlankedTable, ClosingBytes, StoredCurrent, Blocks, Int32;
  }

  lemma OpenKeepsHeaders(v: Vol, name: Text56, date: Text8, time: Text8)
    requires Sound(v) && (v.isOpen || v.fileNumber < MAX_FILES) && MemoryHeaded(v)
    requires IsPadded(name) && IsPadded(date) && IsPadded(time)
    ensures v.isOpen || CanOpen(v)
    ensures MemoryHeaded(Opened(v, name, date, time)) && NameOf(Opened(v, name, date, time)) == NameOf(v)
  {
    OpenStep(v, name, date, time);
    if !v.isOpen {
      var e := NewEntry(name, v.writeBlock, date, time);
      assert Opened(v, name, date, time).table == OpenedTable(v.table, v.fileNumber, e);
      assert |Files(v)| == v.fileNumber by {
        hide Files, Opened;
      }
      OpenHeads(v.table, v.fileNumber, e);
      hide Files, Headed, Opened, OpenedTable, Sound, CString;
    }
  }

  // While power stays on, whatever the updates write.
  lemma StepKeepsMemoryHeaded(probe: bool, v: Vol, op: Op)
    requires Sound(v) && Enabled(probe, v, op) && MemoryHeaded(v) && !op.PowerLoss?
    ensures MemoryHeaded(Step(probe, v, op))
    ensures !op.Erase? && !op.EraseKeepingTmats? ==> NameOf(Step(probe, v, op)) == NameOf(v)
    ensures op.EraseKeepingTmats? ==> |Step(probe, v, op).table| == MAX_STANAG_BLOCKS == |v.table|
                                      && SameHeader(Step(probe, v, op).table[0], v.table[0])
  {
    if op.Open? {
      hide Sound, MemoryHeaded, Opened, CString;
      OpenKeepsHeaders(v, op.name, op.date, op.time);
    } else if op.Erase? {
      hide Erased, Files, Sound, CString;
      EraseStep(v, op.ok);
    } else if op.EraseKeepingTmats? {
      KeptHeader(probe, v, op);
    } else {
      hide Sound, Files, Step, Enabled, Headed, SameHeaders, CString;
      EnabledSteps(probe, v, op);
      StepKeepsHeaders(probe, v, op);
      FilesStayCounted(probe, v, op);
      SameHeadersStayHeaded(Step(probe, v, op).table, v.table, |Files(v)|, NameOf(v));
      SameNames(Step(probe, v, op).table, v.table);
    }
  }

  lemma SameNames(t: seq<DirBlock>, u: seq<DirBlock>)
    requires SameHeaders(t, u) && u != []
    ensures t != [] && t[0].volumeName == u[0].volumeName
  {
    assert SameHeader(t[0], u[0]);
  }

  lemma KeptHeader(probe: bool, v: Vol, op: Op)
    requires Sound(v) && Enabled(probe, v, op) && op.EraseKeepingTmats? && MemoryHeaded(v)
    ensures var w := Step(probe, v, op);
      MemoryHeaded(w) && |w.table| == MAX_STANAG_BLOCKS == |v.table| && SameHeader(w.table[0], v.table[0])
  {
    hide TmatsTable, Files, Sound, CString, StoredAll;
    TmatsEraseStep(v);
    KeptBlock(v);
    assert TmatsErased(v).table == TmatsTable(v.table);
  }

  /* ---------- on the cartridge ---------- */

  lemma SameCartridgeHeaders(v: Vol, w: Vol)
    requires Untouched(v.sectors, w.sectors) && Stored(w) == Stored(v) && CartridgeHeaded(v)
    requires Stored(v) != [] ==> NameOf(w) == NameOf(v)
    ensures CartridgeHeaded(w)
  {
    LoadsDespiteDirectory(v.sectors, w.sectors);
    hide LoadAll, Stored, NameOf;
  }

  // After both writes of an update, and between them.
  lemma HeadersAfterStore(sectors: seq<Sector>, table: seq<DirBlock>, b: nat, m: nat, n: nat, name: seq<Byte>)
    requires |sectors| >= RESERVED_BLOCKS && |table| == MAX_STANAG_BLOCKS && b < MAX_STANAG_BLOCKS
    requires Headed(table, n, name) && 4 * b < n <= 4 * b + 4
    requires Headed(LoadAll(sectors), m, name) && 4 * (b - 1) <= m
    ensures Headed(LoadAll(StoredCurrent(sectors, table, b)), n, name)
    ensures Headed(LoadAll(StoredPrevious(sectors, table, b)), if m >= 4 * b then m else 4 * b, name)
    ensures LoadAll(StoredCurrent(sectors, table, b))[b].shutDown == table[b].shutDown
  {
    hide StoredCurrent, StoredPrevious, StoreBlock, LoadBlock, LoadAll, Headed;
    LoadsAfterStore(sectors, table, b);
    HeaderSurvives(table[b]);
    if b > 0 {
      HeaderSurvives(table[b - 1]);
    }
    BothBlocksHeaded(table, LoadAll(sectors), LoadAll(StoredCurrent(sectors, table, b)), b, m, n, name);
    FirstBlockHeaded(table, LoadAll(sectors), LoadAll(StoredPrevious(sectors, table, b)), b, m, n, name);
  }

  lemma BothBlocksHeaded(table: seq<DirBlock>, d: seq<DirBlock>, e: seq<DirBlock>, b: nat, m: nat, n: nat,
                         name: seq<Byte>)
    requires |table| == |d| == |e| == MAX_STANAG_BLOCKS && 4 * b < n <= 4 * b + 4 && 4 * (b - 1) <= m
    requires Headed(table, n, name) && Headed(d, m, name) && b < MAX_STANAG_BLOCKS
    requires SameHeader(e[b], table[b]) && (b > 0 ==> SameHeader(e[b - 1], table[b - 1]))
    requires forall j :: 0 <= j < MAX_STANAG_BLOCKS && j != b - 1 && j != b ==> e[j] == d[j]
    ensures Headed(e, n, name)
  {
    hide CString;
    forall j | 0 <= j < MAX_STANAG_BLOCKS && 4 * j < n ensures Header(e[j], name) {
      assert Header(table[j], name);
      assert j < b - 1 ==> Header(d[j], name);
    }
  }

  lemma FirstBlockHeaded(table: seq<DirBlock>, d: seq<DirBlock>, e: seq<DirBlock>, b: nat, m: nat, n: nat,
                         name: seq<Byte>)
    requires |table| == |d| == |e| == MAX_STANAG_BLOCKS && 4 * b < n <= 4 * b + 4 && 4 * (b - 1) <= m
    requires Headed(table, n, name) && Headed(d, m, name) && b < MAX_STANAG_BLOCKS
    requires b > 0 ==> SameHeader(e[b - 1], table[b - 1])
    requires forall j :: 0 <= j < MAX_STANAG_BLOCKS && j != b - 1 ==> e[j] == d[j]
    ensures Headed(e, if m >= 4 * b then m else 4 * b, name)
  {
    hide CString;
    forall j | 0 <= j < MAX_STANAG_BLOCKS && 4 * j < (if m >= 4 * b then m else 4 * b) ensures Header(e[j], name) {
      assert j == b - 1 ==> Header(table[j], name);
      assert j != b - 1 ==> Header(d[j], name);
    }
  }

  lemma ReachIsFar(v: Vol)
    requires WriteBackReaches(v)
    ensures 4 * (v.fileNumber / 4 - 1) <= |Stored(v)|
  {
    hide Files, Stored;
  }

  lemma WriteBackHeads(probe: bool, v: Vol, op: Op)
    requires Sound(v) && Backed(v) && Enabled(probe, v, op) && WritesBack(op) && Reaches(v, op)
    requires MemoryHeaded(v) && CartridgeHeaded(v)
    ensures CartridgeHeaded(Step(probe, v, op))
  {
    var w, b := Step(probe, v, op), v.fileNumber / 4;
    assert WriteBackReaches(v) && !op.PowerLoss? && !op.Erase? && !op.EraseKeepingTmats? && !LeavesDirectory(op);
    hide Sound, Backed, Enabled, Step, Files, Stored, LoadAll, StoredCurrent, StoredPrevious, Headed, NameOf,
         WritesBack, Reaches, WriteBackReaches;
    StepKeepsMemoryHeaded(probe, v, op);
    WriteBackStep(probe, v, op);
    StepKeepsBacked(probe, v, op);
    ReachIsFar(v);
    LastInBlock(Files(v));
    HeadersAfterStore(v.sectors, w.table, b, |Stored(v)|, |Files(w)|, NameOf(v));
  }

  // Where power is lost, the blocks in use of what is left have their headers.
  lemma CutHeads(v: Vol, cut: Cut)
    requires Sound(v) && Backed(v) && Cuttable(v, cut) && CutReaches(v, cut) && |v.sectors| >= RESERVED_BLOCKS
    requires MemoryHeaded(v) && CartridgeHeaded(v)
    ensures cut.InUpdate? ==> Files(v) != [] && LastIn(Files(v), v.fileNumber / 4)
    ensures cut.InErase? ==> Files(v) != []
    ensures Headed(LoadAll(CutSectors(v, cut)), |CutList(v, cut)|, NameOf(v))
  {
    hide Sound, Backed, Files, Stored, LoadAll, StoredPrevious, StoredAll, UpdatedTable, TmatsTable, Headed, NameOf,
         WriteBackReaches, Published;
    CutHoldsList(v, cut);
    match cut
    case AtRest => AtRestLinks(v);
    case InUpdate(total, time) => TornUpdateHeads(v, total, time);
    case InErase(k) =>
      if k == 0 {
        AtRestLinks(v);
      } else {
        TornEraseHeads(v, k);
      }
  }

  lemma TornUpdateHeads(v: Vol, total: U64, time: Text8)
    requires Sound(v) && Backed(v) && Cuttable(v, InUpdate(total, time)) && WriteBackReaches(v)
    requires MemoryHeaded(v) && CartridgeHeaded(v) && Files(v) != [] && LastIn(Files(v), v.fileNumber / 4)
    ensures Headed(LoadAll(CutSectors(v, InUpdate(total, time))), |CutList(v, InUpdate(total, time))|, NameOf(v))
  {
    hide Sound, Files, Stored, LoadAll, StoredPrevious, StoredCurrent, UpdatedTable, Headed, NameOf, WriteBackReaches,
         Published, Backed;
    OpenCanUpdate(v);
    var b, table := v.fileNumber / 4, UpdatedTable(v.table, v.fileNumber, total, time);
    UpdateHeaders(v, total, time);
    SameHeadersStayHeaded(table, v.table, |Files(v)|, NameOf(v));
    PublishedShape(Files(v), total, time);
    ReachIsFar(v);
    HeadersAfterStore(v.sectors, table, b, |Stored(v)|, |Files(v)|, NameOf(v));
  }

  lemma TornEraseHeads(v: Vol, k: nat)
    requires Sound(v) && Cuttable(v, InErase(k)) && k > 0 && MemoryHeaded(v) && |v.sectors| >= RESERVED_BLOCKS
    requires Files(v) != []
    ensures |CutList(v, InErase(k))| == 1
    ensures Headed(LoadAll(CutSectors(v, InErase(k))), 1, NameOf(v))
  {
    hide Sound, Files, LoadAll, TmatsTable, StoredAll, StoreBlock, LoadBlock, CString;
    var t := TmatsTable(v.table);
    KeptBlock(v);
    LoadsAfterErase(v.sectors, t, k);
    HeaderSurvives(t[0]);
  }

  lemma KeptBlock(v: Vol)
    requires |v.table| == MAX_STANAG_BLOCKS && MemoryHeaded(v) && Files(v) != []
    ensures SameHeader(TmatsTable(v.table)[0], v.table[0]) && Header(v.table[0], NameOf(v))
  {
    hide Files, CString;
  }

  lemma RestartIsHeaded(probe: bool, v: Vol, op: Op)
    requires Sound(v) && Backed(v) && Enabled(probe, v, op) && op.PowerLoss? && Reaches(v, op)
    requires MemoryHeaded(v) && CartridgeHeaded(v)
    ensures MemoryHeaded(Step(probe, v, op)) && CartridgeHeaded(Step(probe, v, op))
  {
    hide Sound, Backed, Enabled, Reaches, Step, Files, Stored, LoadAll, CutSectors, CutList, Headed, NameOf, Cuttable,
         CutReaches, MemoryHeaded, CartridgeHeaded;
    PowerLossIsRestart(probe, v, op.cut, op.faults);
    PowerLossKeepsBacked(probe, v, op.cut, op.faults);
    CutHeads(v, op.cut);
    LoadedIsHeaded(Step(probe, v, op), NameOf(v));
  }

  lemma LoadedIsHeaded(w: Vol, name: seq<Byte>)
    requires |w.sectors| >= RESERVED_BLOCKS && Stored(w) == Files(w)
    requires Files(w) != [] ==> w.table == LoadAll(w.sectors)
    requires Headed(LoadAll(w.sectors), |Files(w)|, name)
    ensures MemoryHeaded(w) && CartridgeHeaded(w)
  {
    hide Files, Stored, LoadAll, CString;
    if Files(w) != [] {
      assert Header(w.table[0], name);
    }
  }

  lemma StepKeepsHeaded(probe: bool, v: Vol, op: Op)
    requires Sound(v) && Backed(v) && Enabled(probe, v, op) && Reaches(v, op)
    requires MemoryHeaded(v) && CartridgeHeaded(v)
    ensures MemoryHeaded(Step(probe, v, op)) && CartridgeHeaded(Step(probe, v, op))
  {
    hide Sound, Backed, Enabled, Reaches, Step, MemoryHeaded, CartridgeHeaded, NameOf;
    if op.PowerLoss? {
      RestartIsHeaded(probe, v, op);
    } else {
      StepKeepsMemoryHeaded(probe, v, op);
      if WritesBack(op) {
        WriteBackHeads(probe, v, op);
      } else if op.EraseKeepingTmats? || (op.Erase? && op.ok) {
        ErasedIsHeaded(probe, v, op);
      } else {
        PlainStepIsHeaded(probe, v, op);
      }
    }
  }

  lemma PlainStepIsHeaded(probe: bool, v: Vol, op: Op)
    requires Sound(v) && Backed(v) && Enabled(probe, v, op) && Reaches(v, op) && LeavesDirectory(op)
    requires MemoryHeaded(v) && CartridgeHeaded(v)
    ensures CartridgeHeaded(Step(probe, v, op))
  {
    assert op.Erase? ==> Stored(v) == [];
    hide Sound, Backed, Enabled, Reaches, Step, MemoryHeaded, CartridgeHeaded, NameOf, Stored;
    PlainStepKeepsBacked(probe, v, op);
    LeavesDirectoryUntouched(probe, v, op);
    StepKeepsMemoryHeaded(probe, v, op);
    SameCartridgeHeaders(v, Step(probe, v, op));
  }

  lemma ErasedIsHeaded(probe: bool, v: Vol, op: Op)
    requires Sound(v) && Backed(v) && Enabled(probe, v, op) && Reaches(v, op)
    requires op.EraseKeepingTmats? || (op.Erase? && op.ok)
    requires MemoryHeaded(v) && CartridgeHeaded(v)
    ensures CartridgeHeaded(Step(probe, v, op))
  {
    hide Sound, Backed, Reaches, MemoryHeaded, Files, Stored, Headed, NameOf, LoadAll, TmatsTable, StoredAll, InitTable,
         CutSectors, CutList, TmatsErased, Erased;
    StepKeepsBacked(probe, v, op);
    StepIsSound(probe, v, op);
    var w := Step(probe, v, op);
    InvSectors(v);
    InvSectors(w);
    if op.EraseKeepingTmats? {
      EnabledSteps(probe, v, op);
      TornEraseHeads(v, MAX_STANAG_BLOCKS);
      TmatsEraseSectors(v);
      StepKeepsMemoryHeaded(probe, v, op);
      SameFirstName(w, v);
    } else {
      NothingHeaded(LoadAll(w.sectors), NameOf(w));
    }
  }

  lemma SameFirstName(w: Vol, v: Vol)
    requires w.table != [] && v.table != [] && SameHeader(w.table[0], v.table[0])
    ensures NameOf(w) == NameOf(v)
  {
  }

  lemma NothingHeaded(t: seq<DirBlock>, name: seq<Byte>)
    ensures Headed(t, 0, name)
  {
  }

  // Over every run whose steps reach, all directory blocks in use have these
  // headers, in memory and on the cartridge, with one volume name.
  lemma {:induction false} RunKeepsHeaded(probe: bool, v: Vol, ops: seq<Op>)
    requires Sound(v) && Backed(v) && Possible(probe, v, ops) && AllReach(probe, v, ops)
    requires MemoryHeaded(v) && CartridgeHeaded(v)
    ensures MemoryHeaded(Run(probe, v, ops)) && CartridgeHeaded(Run(probe, v, ops))
    decreases |ops|
  {
    hide Sound, Enabled, Step, Backed, Reaches, MemoryHeaded, CartridgeHeaded;
    if ops != [] {
      StepIsSound(probe, v, ops[0]);
      StepKeepsBacked(probe, v, ops[0]);
      StepKeepsHeaded(probe, v, ops[0]);
      RunKeepsHeaded(probe, Step(probe, v, ops[0]), ops[1..]);
    }
  }

  /* ---------- the mark of a proper shut-down ---------- */

  // Set by an update, cleared by the next open.
  function MarkAfter(mark: bool, op: Op, isOpen: bool): bool {
    match op
    case Open(_, _, _) => mark && isOpen
    case Publish(_, _, present, _, _) => mark || present
    case PublishAll(_, present, _, _) => mark || present
    case SClose(_, _, _, _, _) => true
    case EraseKeepingTmats => true
    case _ => mark
  }

  // The block of the last file carries the mark.
  predicate Marked(v: Vol, n: nat, mark: bool) {
    n > 0 && (n - 1) / 4 < |v.table| ==> v.table[(n - 1) / 4].shutDown == if mark then 0xFF else 0x00
  }

  lemma StepKeepsMark(probe: bool, v: Vol, op: Op, mark: bool)
    requires Sound(v) && Enabled(probe, v, op) && !op.PowerLoss? && Marked(v, |Files(v)|, mark)
    ensures var w := Step(probe, v, op); Marked(w, |Files(w)|, MarkAfter(mark, op, v.isOpen))
  {
    hide Sound, Files, Step, Enabled, Marked;
    StepKeepsSound(probe, v, op);
    FilesNumbered(v);
    FilesNumbered(Step(probe, v, op));
    if op.Open? {
      OpenMark(probe, v, op, mark);
    } else if op.Erase? || op.EraseKeepingTmats? {
      EraseMark(probe, v, op, mark);
    } else {
      FindsItOpen(probe, v, op);
      FilesStayCounted(probe, v, op);
      RecordingMark(probe, v, op, mark);
    }
  }

  lemma FindsItOpen(probe: bool, v: Vol, op: Op)
    requires Enabled(probe, v, op) && KeepsLinks(op)
    ensures v.isOpen
  {
  }

  lemma FilesNumbered(v: Vol)
    requires Sound(v)
    ensures |Files(v)| == v.fileNumber + if v.isOpen then 1 else 0
  {
    hide Holds, Files;
  }

  lemma OpenMark(probe: bool, v: Vol, op: Op, mark: bool)
    requires Sound(v) && Enabled(probe, v, op) && op.Open? && Marked(v, |Files(v)|, mark)
    requires |Files(v)| == v.fileNumber + if v.isOpen then 1 else 0
    ensures var w := Step(probe, v, op); Marked(w, v.fileNumber + 1, mark && v.isOpen)
  {
    EnabledSteps(probe, v, op);
    hide Sound, Files, StrCpy;
  }

  lemma EraseMark(probe: bool, v: Vol, op: Op, mark: bool)
    requires Sound(v) && Enabled(probe, v, op) && (op.Erase? || op.EraseKeepingTmats?)
    ensures var w := Step(probe, v, op); Marked(w, |Files(w)|, MarkAfter(mark, op, v.isOpen))
  {
    EnabledSteps(probe, v, op);
    hide Sound, Files, StoredAll;
    if op.Erase? {
      EraseStep(v, op.ok);
    } else {
      TmatsEraseStep(v);
    }
  }

  lemma RecordingMark(probe: bool, v: Vol, op: Op, mark: bool)
    requires Sound(v) && Enabled(probe, v, op) && KeepsLinks(op) && Marked(v, v.fileNumber + 1, mark)
    ensures Marked(Step(probe, v, op), v.fileNumber + 1, MarkAfter(mark, op, v.isOpen))
  {
    EnabledSteps(probe, v, op);
    hide Sound, Files, StoredCurrent, NodeSectors, ClosingBytes, Blocks;
  }
}
