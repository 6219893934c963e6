// The node file of M23_EventProcessor.c: the index of one recording, written
// behind it in 512-byte blocks, and the two searches for a time.
module NodeFile {
  import opened Bytes
  import opened DirectoryFormat
  import opened DiskIo

  // One index entry; 16 bytes in memory and on disk.
  datatype Node = Node(eventInfo: U32, absTimeLsw: U32, absTimeMsw: U32, block: U32)

  const NODE_SIZE := 16
  const NODE_HEADER := 12
  // What the clearing of the buffer covers, and what the buffer holds.
  const MAX_NODE_BLOCKS := 938
  const NODE_BUFFER_BYTES := 20480 * 25
  const NODE_BUFFER_BLOCKS := 1000

  // What the buffer holds from earlier uses.
  type Stale = s: seq<Byte> | |s| == NODE_BUFFER_BYTES witness Fill(NODE_BUFFER_BYTES, 0)

  // "NODEFILE"
  const SIGNATURE: Text8 := [78, 79, 68, 69, 70, 73, 76, 69]

  /* ---------- image ---------- */

  function NodeImage(n: Node): (s: seq<Byte>)
    ensures |s| == NODE_SIZE
  {
    LittleEndian(n.eventInfo, 4) + LittleEndian(n.absTimeLsw, 4)
    + LittleEndian(n.absTimeMsw, 4) + LittleEndian(n.block, 4)
  }

  function NodeFromImage(s: seq<Byte>): Node
    requires |s| == NODE_SIZE
  {
    Node(Get32(s[..4]), Get32(s[4..8]), Get32(s[8..12]), Get32(s[12..]))
  }

  lemma NodeImageRoundTrip(n: Node)
    ensures NodeFromImage(NodeImage(n)) == n
  {
    var s := NodeImage(n);
    PowersOf256();
    assert s[..4] == LittleEndian(n.eventInfo, 4);
    LittleEndianDecodes(n.eventInfo, 4);
    assert s[4..8] == LittleEndian(n.absTimeLsw, 4);
    LittleEndianDecodes(n.absTimeLsw, 4);
    assert s[8..12] == LittleEndian(n.absTimeMsw, 4);
    LittleEndianDecodes(n.absTimeMsw, 4);
    assert s[12..] == LittleEndian(n.block, 4);
    LittleEndianDecodes(n.block, 4);
  }

  function NodeBytes(nodes: seq<Node>): (s: seq<Byte>)
    ensures |s| == NODE_SIZE * |nodes|
  {
    if nodes == [] then [] else NodeBytes(nodes[..|nodes| - 1]) + NodeImage(nodes[|nodes| - 1])
  }

  lemma {:induction false} NodeBytesAt(nodes: seq<Node>, i: nat)
    requires i < |nodes|
    ensures NodeBytes(nodes)[NODE_SIZE * i..NODE_SIZE * (i + 1)] == NodeImage(nodes[i])
  {
    var init := nodes[..|nodes| - 1];
    assert NodeBytes(nodes) == NodeBytes(init) + NodeImage(nodes[|nodes| - 1]);
    if i == |nodes| - 1 {
      assert NodeBytes(nodes)[NODE_SIZE * i..] == NodeImage(nodes[i]);
    } else {
      NodeBytesAt(init, i);
      assert NodeBytes(nodes)[NODE_SIZE * i..NODE_SIZE * (i + 1)]
          == NodeBytes(init)[NODE_SIZE * i..NODE_SIZE * (i + 1)];
    }
  }

  // A reader of little-endian words finds in a node file its name, the number
  // of entries, and entry i in 16 bytes from byte 12 + 16 * i on: event, time
  // of day, day, block.
  lemma NodeFileLayout(nodes: seq<Node>, i: nat)
    requires |nodes| < 0x1_0000_0000 && i < |nodes|
    ensures var s, at := UnpaddedImage(nodes), 12 + 16 * i;
      && s[..8] == [78, 79, 68, 69, 70, 73, 76, 69] && FromLittleEndian(s[8..12]) == |nodes|
      && |s| == 12 + 16 * |nodes|
      && FromLittleEndian(s[at..at + 4]) == nodes[i].eventInfo
      && FromLittleEndian(s[at + 4..at + 8]) == nodes[i].absTimeLsw
      && FromLittleEndian(s[at + 8..at + 12]) == nodes[i].absTimeMsw
      && FromLittleEndian(s[at + 12..at + 16]) == nodes[i].block
  {
    var s, n, at := UnpaddedImage(nodes), nodes[i], 12 + 16 * i;
    NodeBytesAt(nodes, i);
    PowersOf256();
    LittleEndianDecodes(|nodes|, 4);
    hide NodeBytes, LittleEndian, FromLittleEndian;
    assert s[..8] == SIGNATURE && s[8..12] == LittleEndian(|nodes|, 4);
    assert s[at..at + 16] == NodeBytes(nodes)[16 * i..16 * (i + 1)];
    hide UnpaddedImage;
    ImageWords(n);
    SubSlices(s, at);
  }

  lemma SubSlices(s: seq<Byte>, at: nat)
    requires at + 16 <= |s|
    ensures s[at..at + 4] == s[at..at + 16][..4] && s[at + 4..at + 8] == s[at..at + 16][4..8]
    ensures s[at + 8..at + 12] == s[at..at + 16][8..12] && s[at + 12..at + 16] == s[at..at + 16][12..]
  {
    SubSlice(s, at, 0);
    SubSlice(s, at, 4);
    SubSlice(s, at, 8);
    SubSlice(s, at, 12);
    assert s[at..at + 16][0..4] == s[at..at + 16][..4] && s[at..at + 16][12..16] == s[at..at + 16][12..];
  }

  lemma SubSlice(s: seq<Byte>, at: nat, k: nat)
    requires at + 16 <= |s| && k <= 12
    ensures s[at + k..at + k + 4] == s[at..at + 16][k..k + 4]
  {
    var w := s[at..at + 16];
    var a, b := s[at + k..at + k + 4], w[k..k + 4];
    forall i | 0 <= i < 4 ensures a[i] == b[i] {
      assert w[k + i] == s[at + k + i];
    }
  }

  lemma ImageWords(n: Node)
    ensures var w := NodeImage(n);
      FromLittleEndian(w[..4]) == n.eventInfo && FromLittleEndian(w[4..8]) == n.absTimeLsw
      && FromLittleEndian(w[8..12]) == n.absTimeMsw && FromLittleEndian(w[12..]) == n.block
  {
    var w := NodeImage(n);
    PowersOf256();
    assert w[..4] == LittleEndian(n.eventInfo, 4) && w[4..8] == LittleEndian(n.absTimeLsw, 4);
    assert w[8..12] == LittleEndian(n.absTimeMsw, 4) && w[12..] == LittleEndian(n.block, 4);
    LittleEndianDecodes(n.eventInfo, 4);
    LittleEndianDecodes(n.absTimeLsw, 4);
    LittleEndianDecodes(n.absTimeMsw, 4);
    LittleEndianDecodes(n.block, 4);
  }

  // Number of 512-byte blocks a node file with n entries takes.
  function NodeFileBlocks(n: nat): (b: nat)
    ensures 512 * (b - 1) < NODE_SIZE * n + NODE_HEADER <= 512 * b
  {
    (NODE_SIZE * n + NODE_HEADER + 511) / 512
  }

  // The list, padded to whole blocks, fits the buffer.
  predicate Fits(n: nat) {
    NODE_SIZE * n + NODE_HEADER <= NODE_BUFFER_BYTES
  }

  function UnpaddedImage(nodes: seq<Node>): (s: seq<Byte>)
    ensures |s| == NODE_SIZE * |nodes| + NODE_HEADER
  {
    SIGNATURE + LittleEndian(|nodes|, 4) + NodeBytes(nodes)
  }

  // The node file, padded to whole blocks: with zeros as far as the buffer is
  // cleared, with what it held before behind that.
  function FileImage(nodes: seq<Node>, stale: Stale): (s: seq<Byte>)
    requires Fits(|nodes|)
    ensures |s| == 512 * NodeFileBlocks(|nodes|)
  {
    UnpaddedImage(nodes) + Padding(|nodes|, stale)
  }

  function Padding(n: nat, stale: Stale): (s: seq<Byte>)
    requires Fits(n)
    ensures |s| == 512 * NodeFileBlocks(n) - (NODE_SIZE * n + NODE_HEADER)
    ensures forall i :: 0 <= i < |s| ==> s[i] == Cleared(stale, NODE_SIZE * n + NODE_HEADER + i)
  {
    var size := NODE_SIZE * n + NODE_HEADER;
    seq<Byte>(512 * NodeFileBlocks(n) - size,
              i requires 0 <= i < 512 * NodeFileBlocks(n) - size => Cleared(stale, size + i))
  }

  function Cleared(stale: Stale, k: nat): Byte
    requires k < NODE_BUFFER_BYTES
  {
    if k < 512 * MAX_NODE_BLOCKS then 0 else stale[k]
  }

  function ZeroPadded(nodes: seq<Node>): (s: seq<Byte>)
    ensures |s| == 512 * NodeFileBlocks(|nodes|)
  {
    var s := UnpaddedImage(nodes);
    s + Fill(512 * NodeFileBlocks(|nodes|) - |s|, 0)
  }

  // The padding is zero, whatever the buffer held before, exactly when the
  // file ends within the cleared blocks.
  lemma PaddingIsZeroExactly(nodes: seq<Node>)
    requires Fits(|nodes|)
    ensures (forall stale: Stale :: FileImage(nodes, stale) == ZeroPadded(nodes))
       <==> NodeFileBlocks(|nodes|) <= MAX_NODE_BLOCKS
  {
    var n, blocks := |nodes|, NodeFileBlocks(|nodes|);
    hide UnpaddedImage;
    if blocks > MAX_NODE_BLOCKS {
      var stale: Stale := Fill(NODE_BUFFER_BYTES, 0xAD);
      var last := 512 * blocks - 1;
      assert FileImage(nodes, stale)[last] == Padding(n, stale)[last - |UnpaddedImage(nodes)|] == 0xAD;
      assert ZeroPadded(nodes)[last] == 0;
    } else {
      forall stale: Stale ensures FileImage(nodes, stale) == ZeroPadded(nodes) {
        assert Padding(n, stale) == Fill(512 * blocks - |UnpaddedImage(nodes)|, 0);
      }
    }
  }

  // The image depends on what lies behind the cleared blocks only.
  lemma SameImage(nodes: seq<Node>, stale: Stale, other: Stale)
    requires Fits(|nodes|)
    requires (forall k :: 512 * MAX_NODE_BLOCKS <= k < NODE_BUFFER_BYTES ==> stale[k] == other[k])
          || NodeFileBlocks(|nodes|) <= MAX_NODE_BLOCKS
    ensures FileImage(nodes, stale) == FileImage(nodes, other)
  {
    hide UnpaddedImage;
    assert Padding(|nodes|, stale) == Padding(|nodes|, other);
  }

  // The first such list has 30016 entries.
  lemma PaddingCanBeStale(n: nat)
    ensures Fits(n) && NodeFileBlocks(n) > MAX_NODE_BLOCKS <==> 30016 <= n <= 31999
  {
  }

  function ImageSector(nodes: seq<Node>, stale: Stale, i: nat): Sector
    requires Fits(|nodes|) && i < NodeFileBlocks(|nodes|)
  {
    FileImage(nodes, stale)[512 * i..512 * (i + 1)]
  }

  predicate IsNodeFile(s: Sector) {
    s[..8] == SIGNATURE
  }

  function NodeCount(s: Sector): U32 {
    Get32(s[8..12])
  }

  /* ---------- filling the buffer ---------- */

  // memcpy of s to buffer + offset.
  method Append(buffer: array<Byte>, offset: nat, s: seq<Byte>)
    requires offset + |s| <= buffer.Length
    modifies buffer
    ensures buffer[..offset + |s|] == old(buffer[..offset]) + s
    ensures buffer[offset + |s|..] == old(buffer[offset + |s|..])
  {
    forall k | 0 <= k < |s| {
      buffer[offset + k] := s[k];
    }
  }

  // memset(buffer, 0, n)
  method Clear(buffer: array<Byte>, n: nat)
    requires n <= buffer.Length
    modifies buffer
    ensures forall k :: 0 <= k < n ==> buffer[k] == 0
    ensures buffer[n..] == old(buffer[n..])
  {
    forall k | 0 <= k < n {
      buffer[k] := 0;
    }
  }

  // The copying loop of m23_WriteNodesFile, for every list that fits the
  // buffer.
  method FillBuffer(buffer: array<Byte>, nodes: array<Node>, currentNode: nat)
    requires currentNode <= nodes.Length && Fits(currentNode)
    requires buffer.Length == NODE_BUFFER_BYTES
    modifies buffer
    ensures buffer[..512 * NodeFileBlocks(currentNode)] == FileImage(nodes[..currentNode], old(buffer[..]))
  {
    ghost var list := nodes[..currentNode];
    ghost var stale: Stale := buffer[..];
    Clear(buffer, MAX_NODE_BLOCKS * 512);
    ghost var cleared := buffer[..];
    assert forall k :: 0 <= k < NODE_BUFFER_BYTES ==> cleared[k] == Cleared(stale, k) by {
      BehindCleared(stale, cleared);
    }
    Append(buffer, 0, SIGNATURE + LittleEndian(currentNode, 4));
    var offset := NODE_HEADER;
    FirstPrefix(list, buffer[..offset]);
    assert buffer[offset..] == cleared[offset..];
    for i := 0 to currentNode
      invariant offset == NODE_HEADER + NODE_SIZE * i
      invariant nodes[..currentNode] == list
      invariant buffer[..offset] == UnpaddedPrefix(list, i)
      invariant buffer[offset..] == cleared[offset..]
    {
      Append(buffer, offset, NodeImage(nodes[i]));
      NextPrefix(list, i);
      DropMore(buffer[..], cleared, offset, NODE_SIZE);
      offset := offset + NODE_SIZE;
    }
    LastPrefix(list, stale, cleared, buffer[..], offset);
  }

  lemma BehindCleared(stale: Stale, cleared: seq<Byte>)
    requires |cleared| == NODE_BUFFER_BYTES && cleared[MAX_NODE_BLOCKS * 512..] == stale[MAX_NODE_BLOCKS * 512..]
    requires forall k :: 0 <= k < MAX_NODE_BLOCKS * 512 ==> cleared[k] == 0
    ensures forall k :: 0 <= k < NODE_BUFFER_BYTES ==> cleared[k] == Cleared(stale, k)
  {
    var n := MAX_NODE_BLOCKS * 512;
    forall k | n <= k < NODE_BUFFER_BYTES ensures cleared[k] == stale[k] {
      assert cleared[n..][k - n] == stale[n..][k - n];
    }
  }

  lemma DropMore(s: seq<Byte>, t: seq<Byte>, n: nat, more: nat)
    requires |s| == |t| && n + more <= |s|
    ensures s[n + more..] == s[n..][more..] && t[n + more..] == t[n..][more..]
  {
  }

  lemma {:induction false} FirstPrefix(nodes: seq<Node>, s: seq<Byte>)
    requires s == [] + (SIGNATURE + LittleEndian(|nodes|, 4))
    ensures s == UnpaddedPrefix(nodes, 0)
  {
  }

  lemma LastPrefix(nodes: seq<Node>, stale: Stale, cleared: seq<Byte>, all: seq<Byte>, n: nat)
    requires Fits(|nodes|) && n <= |all| == |cleared| == NODE_BUFFER_BYTES
    requires all[..n] == UnpaddedPrefix(nodes, |nodes|) && all[n..] == cleared[n..]
    requires forall k :: 0 <= k < NODE_BUFFER_BYTES ==> cleared[k] == Cleared(stale, k)
    ensures all[..512 * NodeFileBlocks(|nodes|)] == FileImage(nodes, stale)
  {
    assert nodes[..|nodes|] == nodes;
    var image, end := FileImage(nodes, stale), 512 * NodeFileBlocks(|nodes|);
    assert all[..n] == UnpaddedImage(nodes);
    hide UnpaddedImage, UnpaddedPrefix;
    forall k | 0 <= k < end ensures all[k] == image[k] {
      if k < n {
        assert all[k] == all[..n][k];
      } else {
        assert all[k] == all[n..][k - n] == cleared[k];
      }
    }
  }

  // Header and first i entries of the image.
  function UnpaddedPrefix(nodes: seq<Node>, i: nat): (s: seq<Byte>)
    requires i <= |nodes|
    ensures |s| == NODE_HEADER + NODE_SIZE * i
  {
    SIGNATURE + LittleEndian(|nodes|, 4) + NodeBytes(nodes[..i])
  }

  lemma NextPrefix(nodes: seq<Node>, i: nat)
    requires i < |nodes|
    ensures UnpaddedPrefix(nodes, i + 1) == UnpaddedPrefix(nodes, i) + NodeImage(nodes[i])
  {
    assert nodes[..i + 1][..i] == nodes[..i];
  }

  /* ---------- time stamps ---------- */

  // The n low-order BCD digits, least significant first.
  function BcdDigits(x: nat, n: nat): (d: seq<nat>)
    ensures |d| == n
  {
    if n == 0 then [] else [x % 0x10] + BcdDigits(x / 0x10, n - 1)
  }

  // RecordBCD_To_GSB followed by Time_GSBToTimeTag: microseconds since the
  // start of day 1.
  function TimeOf(n: Node): nat {
    var u, l := BcdDigits(n.absTimeMsw, 8), BcdDigits(n.absTimeLsw, 8);
    var days := 100 * u[2] + 10 * u[1] + u[0];
    var hours, minutes, seconds := 10 * l[7] + l[6], 10 * l[5] + l[4], 10 * l[3] + l[2];
    var elapsed := if days >= 1 then days - 1 else days;
    (((elapsed * 24 + hours) * 60 + minutes) * 60 + seconds) * 1_000_000
  }

  ghost predicate TimeSorted(nodes: seq<Node>) {
    forall i, j :: 0 <= i < j < |nodes| ==> TimeOf(nodes[i]) <= TimeOf(nodes[j])
  }

  /* ---------- the search both forms implement ---------- */

  // The first entry at or after time t, from entry i on.
  function FirstMatch(nodes: seq<Node>, t: int, i: nat): (m: nat)
    requires i <= |nodes|
    ensures i <= m <= |nodes|
    ensures forall j :: i <= j < m ==> TimeOf(nodes[j]) < t
    ensures m < |nodes| ==> t <= TimeOf(nodes[m])
    decreases |nodes| - i
  {
    if i == |nodes| || t <= TimeOf(nodes[i]) then i else FirstMatch(nodes, t, i + 1)
  }

  // Block to play from for time t; 0 when every entry is earlier.
  function SearchBlock(nodes: seq<Node>, t: int): U32 {
    var m := FirstMatch(nodes, t, 0);
    if m == |nodes| then 0 else if m == 0 then nodes[0].block else nodes[m - 1].block
  }

  // On a time-sorted index the search plays from the last entry strictly
  // before the target, or from the first entry when none is; a target after
  // the whole index finds nothing.
  lemma SearchFindsLastEarlierNode(nodes: seq<Node>, t: int)
    requires TimeSorted(nodes) && nodes != []
    ensures t > TimeOf(nodes[|nodes| - 1]) ==> SearchBlock(nodes, t) == 0
    ensures t <= TimeOf(nodes[0]) ==> SearchBlock(nodes, t) == nodes[0].block
    ensures TimeOf(nodes[0]) < t <= TimeOf(nodes[|nodes| - 1]) ==>
      exists i :: 0 <= i < |nodes| - 1 && SearchBlock(nodes, t) == nodes[i].block
                  && forall j :: 0 <= j < |nodes| ==> (TimeOf(nodes[j]) < t <==> j <= i)
  {
    var m := FirstMatch(nodes, t, 0);
    if TimeOf(nodes[0]) < t <= TimeOf(nodes[|nodes| - 1]) {
      forall j | 0 <= j < |nodes| ensures TimeOf(nodes[j]) < t <==> j <= m - 1 {
        if j > m {
          assert TimeOf(nodes[m]) <= TimeOf(nodes[j]);
        }
      }
    }
  }

  // The search through NodeEntries, while the file is still being recorded.
  method FindInMemory(nodes: array<Node>, currentNode: nat, myTime: int) returns (currentBlock: U32)
    requires currentNode <= nodes.Length
    ensures currentBlock == SearchBlock(nodes[..currentNode], myTime)
  {
    currentBlock := 0;
    var i := 0;
    while i < currentNode
      invariant 0 <= i <= currentNode
      invariant currentBlock == 0
      invariant FirstMatch(nodes[..currentNode], myTime, 0) == FirstMatch(nodes[..currentNode], myTime, i)
    {
      if myTime <= TimeOf(nodes[i]) {
        if i != 0 {
          currentBlock := nodes[i - 1].block;
        } else {
          currentBlock := nodes[i].block;
        }
        return;
      }
      i := i + 1;
    }
  }

  /* ---------- the search on disk ---------- */

  // k sectors from address a on, one behind the other.
  function ReadBack(sectors: seq<Sector>, a: nat, k: nat): (s: seq<Byte>)
    requires a + k <= |sectors|
    ensures |s| == 512 * k
  {
    if k == 0 then [] else ReadBack(sectors, a, k - 1) + sectors[a + k - 1]
  }

  function NodeAt(bytes: seq<Byte>, i: nat): Node
    requires NODE_HEADER + NODE_SIZE * (i + 1) <= |bytes|
  {
    NodeFromImage(bytes[NODE_HEADER + NODE_SIZE * i..NODE_HEADER + NODE_SIZE * (i + 1)])
  }

  function ParsedNodes(bytes: seq<Byte>, n: nat): (nodes: seq<Node>)
    requires NODE_HEADER + NODE_SIZE * n <= |bytes|
    ensures |nodes| == n
  {
    seq(n, i requires 0 <= i < n => NodeAt(bytes, i))
  }

  // Blocks read behind the first one.  For a list that fits one block the
  // source forgets to turn the size into blocks and reads size blocks.
  function ExtraReads(n: nat): nat {
    var size := NODE_SIZE * n + NODE_HEADER;
    if size > 512 then NodeFileBlocks(n) - 1 else size
  }

  predicate AllReadable(sectors: seq<Sector>, faults: set<nat>, a: nat, k: nat) {
    forall i :: a <= i < a + k ==> Readable(sectors, faults, i)
  }

  lemma ReadableRange(sectors: seq<Sector>, faults: set<nat>, a: nat, k: nat)
    requires AllReadable(sectors, faults, a, k) && (k > 0 || a <= |sectors|)
    ensures a + k <= |sectors|
  {
    if k > 0 {
      assert Readable(sectors, faults, a + k - 1);
    }
  }

  datatype Index = NoIndex | Index(nodes: seq<Node>)

  // The entries M23_FindTimeBlock gets to see for node block a.
  function LoadedIndex(sectors: seq<Sector>, faults: set<nat>, a: nat): Index {
    if a < 128 || !Readable(sectors, faults, a) || !IsNodeFile(sectors[a]) then NoIndex
    else
      var n := NodeCount(sectors[a]);
      var k := ExtraReads(n) + 1;
      if !AllReadable(sectors, faults, a, k) then NoIndex
      else
        ReadableRange(sectors, faults, a, k);
        Index(ParsedNodes(ReadBack(sectors, a, k), n))
  }

  // What M23_FindTimeBlock returns for a file whose node block is a.
  function OnDiskBlock(sectors: seq<Sector>, faults: set<nat>, a: nat, t: int): U32 {
    match LoadedIndex(sectors, faults, a)
    case NoIndex => 0
    case Index(nodes) => SearchBlock(nodes, t)
  }

  // Read one block into the buffer.
  method ReadInto(disk: Cartridge, buffer: array<Byte>, offset: nat, block: nat) returns (bytesRead: nat)
    requires offset + 512 <= buffer.Length
    modifies disk`readPointer, buffer
    ensures bytesRead == if Readable(disk.sectors, disk.readFaults, block) then 512 else 0
    ensures buffer[..offset] == old(buffer[..offset])
    ensures bytesRead > 0 ==> buffer[offset..offset + 512] == disk.sectors[block]
  {
    disk.ReadSeek(block);
    var r := disk.Read();
    match r
    case NoData =>
      bytesRead := 0;
    case Data(sector) =>
      forall k | 0 <= k < 512 {
        buffer[offset + k] := sector[k];
      }
      bytesRead := 512;
  }

  // The ten attempts at the first block of the node file.
  method LoadHeader(disk: Cartridge, buffer: array<Byte>, nodeBlock: nat) returns (found: bool)
    requires buffer.Length == NODE_BUFFER_BYTES
    modifies disk`readPointer, buffer
    ensures found <==> Readable(disk.sectors, disk.readFaults, nodeBlock) && IsNodeFile(disk.sectors[nodeBlock])
    ensures found ==> buffer[..512] == disk.sectors[nodeBlock]
  {
    var j := 0;
    while true
      invariant 0 <= j < 10
      invariant j > 0 ==> Readable(disk.sectors, disk.readFaults, nodeBlock) && !IsNodeFile(disk.sectors[nodeBlock])
      decreases 10 - j
    {
      var bytesRead := ReadInto(disk, buffer, 0, nodeBlock);
      if bytesRead == 0 {
        return false;
      }
      assert buffer[..512] == buffer[0..512];
      assert buffer[..8] == buffer[..512][..8];
      if buffer[..8] == SIGNATURE {
        return true;
      } else if j > 8 {
        return false;
      }
      j := j + 1;
    }
  }

  // The blocks behind the first one.
  method LoadRest(disk: Cartridge, buffer: array<Byte>, nodeBlock: nat, size: nat) returns (ok: bool)
    requires buffer.Length >= 512 * (size + 1)
    requires Readable(disk.sectors, disk.readFaults, nodeBlock) && buffer[..512] == disk.sectors[nodeBlock]
    modifies disk`readPointer, buffer
    ensures ok <==> AllReadable(disk.sectors, disk.readFaults, nodeBlock, size + 1)
    ensures ok ==> nodeBlock + size + 1 <= |disk.sectors|
                   && buffer[..512 * (size + 1)] == ReadBack(disk.sectors, nodeBlock, size + 1)
  {
    FirstBlockRead(disk.sectors, nodeBlock);
    hide ReadBack;
    for i := 0 to size
      invariant AllReadable(disk.sectors, disk.readFaults, nodeBlock, i + 1)
      invariant nodeBlock + i + 1 <= |disk.sectors|
      invariant buffer[..512 * (i + 1)] == ReadBack(disk.sectors, nodeBlock, i + 1)
    {
      var bytesRead := ReadInto(disk, buffer, (i + 1) * 512, nodeBlock + (i + 1));
      if bytesRead == 0 {
        return false;
      }
      NextBlockRead(buffer[..], disk.sectors, nodeBlock, i + 1);
      assert buffer[..][..512 * (i + 2)] == buffer[..512 * (i + 2)];
    }
    return true;
  }

  lemma {:induction false} FirstBlockRead(sectors: seq<Sector>, a: nat)
    requires a < |sectors|
    ensures ReadBack(sectors, a, 1) == sectors[a]
  {
    assert ReadBack(sectors, a, 1) == ReadBack(sectors, a, 0) + sectors[a];
  }

  lemma NextBlockRead(bytes: seq<Byte>, sectors: seq<Sector>, a: nat, k: nat)
    requires a + k < |sectors| && |bytes| >= 512 * (k + 1)
    requires bytes[..512 * k] == ReadBack(sectors, a, k) && bytes[512 * k..512 * (k + 1)] == sectors[a + k]
    ensures bytes[..512 * (k + 1)] == ReadBack(sectors, a, k + 1)
  {
    assert bytes[..512 * (k + 1)] == bytes[..512 * k] + bytes[512 * k..512 * (k + 1)];
  }

  // How many blocks to read behind the first one.
  method RestBlocks(numBlocks: nat) returns (size: nat)
    ensures size == ExtraReads(numBlocks)
  {
    size := NODE_SIZE * numBlocks + NODE_HEADER;
    if size > 512 {
      size := size - 512;
      size := if size % 512 != 0 then size / 512 + 1 else size / 512;
    }
  }

  // The part of M23_FindTimeBlock that searches a closed file.  The caller
  // vouches for the count on disk: the blocks must fit the buffer.
  method FindOnDisk(disk: Cartridge, buffer: array<Byte>, nodeBlock: nat, myTime: int) returns (currentBlock: U32)
    requires buffer.Length == NODE_BUFFER_BYTES
    requires nodeBlock < |disk.sectors| && IsNodeFile(disk.sectors[nodeBlock]) ==>
      Fits(NodeCount(disk.sectors[nodeBlock]))
    modifies disk`readPointer, buffer
    ensures currentBlock == OnDiskBlock(disk.sectors, disk.readFaults, nodeBlock, myTime)
  {
    hide ParsedNodes, SearchBlock, ReadBack, IsNodeFile, NodeCount;
    Clear(buffer, MAX_NODE_BLOCKS * 512);
    if nodeBlock < 128 {
      return 0;
    }
    var found := LoadHeader(disk, buffer, nodeBlock);
    if !found {
      return 0;
    }
    assert buffer[8..12] == buffer[..512][8..12];
    var numBlocks := NodeCount(buffer[..512]);
    currentBlock := SearchRest(disk, buffer, nodeBlock, numBlocks, myTime);
  }

  // Load the remaining blocks and search them.
  method SearchRest(disk: Cartridge, buffer: array<Byte>, nodeBlock: nat, numBlocks: nat, myTime: int)
      returns (currentBlock: U32)
    requires buffer.Length == NODE_BUFFER_BYTES && Fits(numBlocks)
    requires Readable(disk.sectors, disk.readFaults, nodeBlock) && buffer[..512] == disk.sectors[nodeBlock]
    modifies disk`readPointer, buffer
    ensures AllReadable(disk.sectors, disk.readFaults, nodeBlock, ExtraReads(numBlocks) + 1) ==>
      nodeBlock + ExtraReads(numBlocks) + 1 <= |disk.sectors|
      && currentBlock == SearchBlock(ParsedNodes(ReadBack(disk.sectors, nodeBlock, ExtraReads(numBlocks) + 1),
                                                 numBlocks), myTime)
    ensures !AllReadable(disk.sectors, disk.readFaults, nodeBlock, ExtraReads(numBlocks) + 1) ==> currentBlock == 0
  {
    hide ParsedNodes, ReadBack, SearchBlock, AllReadable;
    var size := RestBlocks(numBlocks);
    var loaded := LoadRest(disk, buffer, nodeBlock, size);
    if !loaded {
      return 0;
    }
    currentBlock := SearchBuffer(buffer, numBlocks, myTime, ReadBack(disk.sectors, nodeBlock, size + 1));
  }

  // memcpy of entry i out of the buffer.
  method ReadNode(buffer: array<Byte>, i: nat, ghost bytes: seq<Byte>) returns (node: Node)
    requires |bytes| <= buffer.Length && buffer[..|bytes|] == bytes
    requires NODE_HEADER + NODE_SIZE * (i + 1) <= |bytes|
    ensures node == NodeAt(bytes, i)
  {
    var offset := NODE_HEADER + NODE_SIZE * i;
    var image := buffer[offset..offset + NODE_SIZE];
    assert image == bytes[offset..offset + NODE_SIZE];
    node := NodeFromImage(image);
  }

  // The scan of the buffered entries; nodeblock trails one entry behind.
  method SearchBuffer(buffer: array<Byte>, numBlocks: nat, myTime: int, ghost bytes: seq<Byte>)
      returns (currentBlock: U32)
    requires |bytes| <= buffer.Length && buffer[..|bytes|] == bytes
    requires NODE_HEADER + NODE_SIZE * numBlocks <= |bytes|
    ensures currentBlock == SearchBlock(ParsedNodes(bytes, numBlocks), myTime)
  {
    currentBlock := 0;
    var nodeblock := currentBlock;
    ghost var list := ParsedNodes(bytes, numBlocks);
    for i := 0 to numBlocks
      invariant currentBlock == 0
      invariant i > 0 ==> nodeblock == list[i - 1].block
      invariant FirstMatch(list, myTime, 0) == FirstMatch(list, myTime, i)
    {
      var node := ReadNode(buffer, i, bytes);
      assert node == list[i];
      if myTime <= TimeOf(node) {
        if i != 0 {
          currentBlock := nodeblock;
        } else {
          currentBlock := node.block;
        }
        return;
      }
      nodeblock := node.block;
    }
  }

  /* ---------- round trip and agreement ---------- */

  // The node file of nodes sits at address a, whatever its padding.
  ghost predicate StoredAt(sectors: seq<Sector>, a: nat, nodes: seq<Node>) {
    a + NodeFileBlocks(|nodes|) <= |sectors|
    && ReadBack(sectors, a, NodeFileBlocks(|nodes|))[..NODE_SIZE * |nodes| + NODE_HEADER] == UnpaddedImage(nodes)
  }

  lemma {:induction false} ReadBackIsImage(sectors: seq<Sector>, a: nat, nodes: seq<Node>, stale: Stale, k: nat)
    requires Fits(|nodes|) && a + NodeFileBlocks(|nodes|) <= |sectors| && k <= NodeFileBlocks(|nodes|)
    requires forall i :: 0 <= i < NodeFileBlocks(|nodes|) ==> sectors[a + i] == ImageSector(nodes, stale, i)
    ensures ReadBack(sectors, a, k) == FileImage(nodes, stale)[..512 * k]
  {
    hide FileImage;
    if k > 0 {
      ReadBackIsImage(sectors, a, nodes, stale, k - 1);
      assert sectors[a + (k - 1)] == ImageSector(nodes, stale, k - 1);
      var s := FileImage(nodes, stale);
      assert s[..512 * k] == s[..512 * (k - 1)] + s[512 * (k - 1)..512 * k];
    }
  }

  // The written blocks are a node file.
  lemma ImageIsStored(sectors: seq<Sector>, a: nat, nodes: seq<Node>, stale: Stale)
    requires Fits(|nodes|) && a + NodeFileBlocks(|nodes|) <= |sectors|
    requires forall i :: 0 <= i < NodeFileBlocks(|nodes|) ==> sectors[a + i] == ImageSector(nodes, stale, i)
    ensures StoredAt(sectors, a, nodes)
  {
    var b, s := NodeFileBlocks(|nodes|), FileImage(nodes, stale);
    ReadBackIsImage(sectors, a, nodes, stale, b);
    assert s[..512 * b] == s;
    assert s[..|UnpaddedImage(nodes)|] == UnpaddedImage(nodes);
  }

  lemma {:induction false} SameReadBack(sectors: seq<Sector>, others: seq<Sector>, a: nat, k: nat)
    requires a + k <= |sectors| == |others|
    requires forall i :: a <= i < a + k ==> others[i] == sectors[i]
    ensures ReadBack(others, a, k) == ReadBack(sectors, a, k)
  {
    if k > 0 {
      SameReadBack(sectors, others, a, k - 1);
    }
  }

  // It depends on its own blocks only.
  lemma StaysStored(sectors: seq<Sector>, others: seq<Sector>, a: nat, nodes: seq<Node>)
    requires StoredAt(sectors, a, nodes) && |others| == |sectors|
    requires forall i :: a <= i < a + NodeFileBlocks(|nodes|) ==> others[i] == sectors[i]
    ensures StoredAt(others, a, nodes)
  {
    SameReadBack(sectors, others, a, NodeFileBlocks(|nodes|));
  }

  lemma {:induction false} ReadBackPrefix(sectors: seq<Sector>, a: nat, k: nat, m: nat)
    requires k <= m && a + m <= |sectors|
    ensures ReadBack(sectors, a, m)[..512 * k] == ReadBack(sectors, a, k)
    decreases m
  {
    if k < m {
      ReadBackPrefix(sectors, a, k, m - 1);
      assert ReadBack(sectors, a, m)[..512 * k] == ReadBack(sectors, a, m - 1)[..512 * k];
    }
  }

  lemma SliceOfPrefix(s: seq<Byte>, k: nat, lo: nat, hi: nat)
    requires lo <= hi <= k <= |s|
    ensures s[..k][lo..hi] == s[lo..hi]
  {
  }

  lemma ImageParses(nodes: seq<Node>, bytes: seq<Byte>)
    requires |bytes| >= NODE_SIZE * |nodes| + NODE_HEADER
    requires bytes[..NODE_SIZE * |nodes| + NODE_HEADER] == UnpaddedImage(nodes)
    ensures ParsedNodes(bytes, |nodes|) == nodes
  {
    hide UnpaddedImage, NodeAt;
    forall i | 0 <= i < |nodes| ensures NodeAt(bytes, i) == nodes[i] {
      NodeParses(nodes, bytes, i);
    }
  }

  lemma NodeParses(nodes: seq<Node>, bytes: seq<Byte>, i: nat)
    requires |bytes| >= NODE_SIZE * |nodes| + NODE_HEADER && i < |nodes|
    requires bytes[..NODE_SIZE * |nodes| + NODE_HEADER] == UnpaddedImage(nodes)
    ensures NodeAt(bytes, i) == nodes[i]
  {
    var lo, hi := NODE_HEADER + NODE_SIZE * i, NODE_HEADER + NODE_SIZE * (i + 1);
    SliceOfPrefix(bytes, NODE_SIZE * |nodes| + NODE_HEADER, lo, hi);
    assert UnpaddedImage(nodes)[lo..hi] == NodeBytes(nodes)[NODE_SIZE * i..NODE_SIZE * (i + 1)];
    NodeBytesAt(nodes, i);
    NodeImageRoundTrip(nodes[i]);
  }

  lemma HeaderStored(sectors: seq<Sector>, a: nat, nodes: seq<Node>)
    requires |nodes| < 0x1_0000_0000 && StoredAt(sectors, a, nodes)
    ensures IsNodeFile(sectors[a]) && NodeCount(sectors[a]) == |nodes|
  {
    var b := NodeFileBlocks(|nodes|);
    var s, u := ReadBack(sectors, a, b), UnpaddedImage(nodes);
    ReadBackPrefix(sectors, a, 1, b);
    FirstBlockRead(sectors, a);
    SliceOfPrefix(s, |u|, 0, 8);
    SliceOfPrefix(s, |u|, 8, 12);
    SliceOfPrefix(s, 512, 0, 8);
    SliceOfPrefix(s, 512, 8, 12);
    assert u[0..8] == SIGNATURE && u[8..12] == LittleEndian(|nodes|, 4);
    assert sectors[a][..8] == sectors[a][0..8];
    PowersOf256();
    LittleEndianDecodes(|nodes|, 4);
  }

  // Reading back the padded blocks returns the nodes that were written, for
  // every count that the header holds.
  lemma {:induction false} NodeFileRoundTrip(sectors: seq<Sector>, a: nat, nodes: seq<Node>, k: nat)
    requires |nodes| < 0x1_0000_0000 && StoredAt(sectors, a, nodes)
    requires NodeFileBlocks(|nodes|) <= k && a + k <= |sectors|
    ensures IsNodeFile(sectors[a]) && NodeCount(sectors[a]) == |nodes|
    ensures ParsedNodes(ReadBack(sectors, a, k), |nodes|) == nodes
  {
    HeaderStored(sectors, a, nodes);
    var b, n := NodeFileBlocks(|nodes|), NODE_SIZE * |nodes| + NODE_HEADER;
    ReadBackPrefix(sectors, a, b, k);
    SliceOfPrefix(ReadBack(sectors, a, k), 512 * b, 0, n);
    assert ReadBack(sectors, a, k)[..n] == ReadBack(sectors, a, k)[0..n];
    ImageParses(nodes, ReadBack(sectors, a, k));
  }

  lemma StoredInside(sectors: seq<Sector>, a: nat, nodes: seq<Node>)
    requires StoredAt(sectors, a, nodes)
    ensures a < a + NodeFileBlocks(|nodes|) <= |sectors| && NodeFileBlocks(|nodes|) <= ExtraReads(|nodes|) + 1
  {
  }

  // The on-disk search sees the entries that were written, provided every
  // block it touches can be read; otherwise it sees none.
  lemma IndexLoads(sectors: seq<Sector>, faults: set<nat>, a: nat, nodes: seq<Node>)
    requires Fits(|nodes|) && StoredAt(sectors, a, nodes) && a >= 128
    ensures LoadedIndex(sectors, faults, a)
         == if AllReadable(sectors, faults, a, ExtraReads(|nodes|) + 1) then Index(nodes) else NoIndex
  {
    hide ReadBack, ParsedNodes, IsNodeFile, NodeCount, StoredAt, ExtraReads, NodeFileBlocks, LoadedIndex, AllReadable;
    var k := ExtraReads(|nodes|) + 1;
    HeaderStored(sectors, a, nodes);
    StoredInside(sectors, a, nodes);
    if AllReadable(sectors, faults, a, k) {
      ReadableRange(sectors, faults, a, k);
      NodeFileRoundTrip(sectors, a, nodes, k);
    }
    HeaderThenNodes(sectors, faults, a, nodes);
  }

  lemma {:induction false} HeaderThenNodes(sectors: seq<Sector>, faults: set<nat>, a: nat, nodes: seq<Node>)
    requires 128 <= a < |sectors| && IsNodeFile(sectors[a]) && NodeCount(sectors[a]) == |nodes|
    requires var k := ExtraReads(|nodes|) + 1;
      AllReadable(sectors, faults, a, k) ==>
        a + k <= |sectors| && ParsedNodes(ReadBack(sectors, a, k), |nodes|) == nodes
    ensures LoadedIndex(sectors, faults, a)
         == if AllReadable(sectors, faults, a, ExtraReads(|nodes|) + 1) then Index(nodes) else NoIndex
  {
    hide ReadBack, ParsedNodes, IsNodeFile, NodeCount, ExtraReads;
    assert AllReadable(sectors, faults, a, ExtraReads(|nodes|) + 1) ==> Readable(sectors, faults, a);
  }

  // Without a node file behind the recording - or with a block among the first
  // 128 for one - the on-disk search finds nothing.
  lemma NothingWithoutNodeFile(sectors: seq<Sector>, faults: set<nat>, a: nat, t: int)
    requires a < 128 || a in faults || a >= |sectors| || sectors[a][..8] != [78, 79, 68, 69, 70, 73, 76, 69]
    ensures OnDiskBlock(sectors, faults, a, t) == 0
  {
  }

  // The two searches agree on every time exactly when every block that the
  // on-disk search touches can be read.  For at most 31 entries these reach
  // up to 508 blocks past the node file.
  lemma SearchesAgree(sectors: seq<Sector>, faults: set<nat>, a: nat, nodes: seq<Node>)
    requires Fits(|nodes|) && StoredAt(sectors, a, nodes) && a >= 128
    requires nodes != [] && nodes[0].block != 0
    ensures (forall t: int :: OnDiskBlock(sectors, faults, a, t) == SearchBlock(nodes, t))
       <==> AllReadable(sectors, faults, a, ExtraReads(|nodes|) + 1)
  {
    IndexLoads(sectors, faults, a, nodes);
    if !AllReadable(sectors, faults, a, ExtraReads(|nodes|) + 1) {
      var t := TimeOf(nodes[0]);
      assert SearchBlock(nodes, t) == nodes[0].block;
      assert OnDiskBlock(sectors, faults, a, t) == 0;
    }
  }
}
