// The STANAG 4575 directory block of M23_Stanag.h, its 512-byte image, and the
// byte swapping that M23_Stanag.c performs on it before every write and after
// every read.
module DirectoryFormat {
  import opened Bytes

  type Text7 = s: seq<Byte> | |s| == 7 witness [0, 0, 0, 0, 0, 0, 0]
  type Text8 = s: seq<Byte> | |s| == 8 witness [0, 0, 0, 0, 0, 0, 0, 0]
  type Text32 = s: seq<Byte> | |s| == 32 witness seq(32, _ => 0)
  type Text56 = s: seq<Byte> | |s| == 56 witness seq(56, _ => 0)

  // One 512-byte sector of the cartridge.
  type Sector = s: seq<Byte> | |s| == 512 witness seq(512, _ => 0)

  datatype FileEntry = FileEntry(
    fileName: Text56,
    startAddress: U64,
    blockCount: U64,
    size: U64,
    createDate: Text8,
    createTime: Text8,
    timeType: Byte,
    reserved: Text7,
    closeTime: Text8)

  const BLANK_ENTRY := FileEntry(Fill(56, 0xFF), TWO64 - 1, TWO64 - 1, TWO64 - 1,
                                 Fill(8, 0xFF), Fill(8, 0xFF), 0xFF, Fill(7, 0xFF), Fill(8, 0xFF))

  type Entries = s: seq<FileEntry> | |s| == 4 witness [BLANK_ENTRY, BLANK_ENTRY, BLANK_ENTRY, BLANK_ENTRY]

  datatype DirBlock = DirBlock(
    magicNumber: Text8,
    revisionNumber: Byte,
    shutDown: Byte,
    numberOfFileEntries: U16,
    currBlock: U32,
    volumeName: Text32,
    forwardLink: U64,
    reverseLink: U64,
    fileEntries: Entries)

  // "FORTYtwo"
  const MAGIC: Text8 := [70, 79, 82, 84, 89, 116, 119, 111]

  function Fill(n: nat, b: Byte): (s: seq<Byte>)
    ensures |s| == n
    ensures forall i :: 0 <= i < n ==> s[i] == b
  {
    seq(n, _ => b)
  }

  /* ---------- strncpy ---------- */

  // strncpy(dst, s, |s|): copy up to the first NUL and clear the rest.
  function Padded(s: seq<Byte>): (r: seq<Byte>)
    ensures |r| == |s|
  {
    if s == [] then []
    else if s[0] == 0 then Fill(|s|, 0)
    else [s[0]] + Padded(s[1..])
  }

  // Nothing but NULs after the first NUL.
  ghost predicate IsPadded(s: seq<Byte>) {
    forall i, j :: 0 <= i < j < |s| && s[i] == 0 ==> s[j] == 0
  }

  lemma {:induction false} PaddedIsPadded(s: seq<Byte>)
    ensures IsPadded(Padded(s))
  {
    if s == [] || s[0] == 0 {
    } else {
      PaddedIsPadded(s[1..]);
      var r := Padded(s);
      forall i, j | 0 <= i < j < |r| && r[i] == 0 ensures r[j] == 0 {
        assert r[i] == Padded(s[1..])[i - 1];
      }
    }
  }

  // A field survives strncpy exactly when it is zero padded.
  lemma {:induction false} PaddedKeeps(s: seq<Byte>)
    ensures Padded(s) == s <==> IsPadded(s)
  {
    if s == [] {
    } else if s[0] == 0 {
      assert Padded(s) == Fill(|s|, 0);
      if IsPadded(s) {
        assert forall j :: 0 < j < |s| ==> s[j] == 0;
        assert Padded(s) == s;
      }
    } else {
      PaddedKeeps(s[1..]);
      assert s == [s[0]] + s[1..];
      if Padded(s) == s {
        assert Padded(s[1..]) == s[1..];
        PaddedIsPadded(s);
      }
      if IsPadded(s) {
        assert forall i, j :: 0 <= i < j < |s[1..]| && s[1..][i] == 0 ==> s[1 + i] == 0 && s[1..][j] == 0;
      }
    }
  }

  lemma NoNulIsPadded(s: seq<Byte>)
    requires 0 !in s
    ensures IsPadded(s)
  {
  }

  /* ---------- swap_Stanag ---------- */

  function SwapEntry(e: FileEntry): FileEntry {
    FileEntry(Padded(e.fileName), SwapEight(e.startAddress), SwapEight(e.blockCount), SwapEight(e.size),
              Padded(e.createDate), Padded(e.createTime), e.timeType, Padded(e.reserved), Padded(e.closeTime))
  }

  function SwapBlock(b: DirBlock): DirBlock {
    DirBlock(b.magicNumber, b.revisionNumber, b.shutDown, SwapTwo(b.numberOfFileEntries), SwapFour(b.currBlock),
             b.volumeName, SwapEight(b.forwardLink), SwapEight(b.reverseLink),
             seq(4, i requires 0 <= i < 4 => SwapEntry(b.fileEntries[i])))
  }

  ghost predicate PaddedEntry(e: FileEntry) {
    IsPadded(e.fileName) && IsPadded(e.createDate) && IsPadded(e.createTime)
    && IsPadded(e.reserved) && IsPadded(e.closeTime)
  }

  lemma SwapEntryTwice(e: FileEntry)
    ensures SwapEntry(SwapEntry(e)) == e <==> PaddedEntry(e)
    ensures SwapEntry(SwapEntry(e)).startAddress == e.startAddress
    ensures SwapEntry(SwapEntry(e)).blockCount == e.blockCount
    ensures SwapEntry(SwapEntry(e)).size == e.size
    ensures SwapEntry(SwapEntry(e)).timeType == e.timeType
  {
    PowersOf256();
    SwapIsInvolution(e.startAddress, 8);
    SwapIsInvolution(e.blockCount, 8);
    SwapIsInvolution(e.size, 8);
    PaddedTwice(e.fileName);
    PaddedTwice(e.createDate);
    PaddedTwice(e.createTime);
    PaddedTwice(e.reserved);
    PaddedTwice(e.closeTime);
  }

  lemma {:induction false} PaddedTwice(s: seq<Byte>)
    ensures Padded(Padded(s)) == s <==> IsPadded(s)
  {
    PaddedIsPadded(s);
    PaddedKeeps(Padded(s));
    PaddedKeeps(s);
  }

  lemma SwapHeaderTwice(b: DirBlock)
    ensures SwapBlock(SwapBlock(b)) == b.(fileEntries := SwapBlock(SwapBlock(b)).fileEntries)
  {
    PowersOf256();
    SwapIsInvolution(b.numberOfFileEntries, 2);
    SwapIsInvolution(b.currBlock, 4);
    SwapIsInvolution(b.forwardLink, 8);
    SwapIsInvolution(b.reverseLink, 8);
  }

  lemma SwapEntriesTwice(b: DirBlock)
    ensures forall i :: 0 <= i < 4 ==>
      SwapBlock(SwapBlock(b)).fileEntries[i] == SwapEntry(SwapEntry(b.fileEntries[i]))
  {
  }

  // Reading back what was stored undoes the swap exactly on directory blocks
  // whose text fields are zero padded; every header field always survives.
  lemma SwapBlockTwice(b: DirBlock)
    ensures SwapBlock(SwapBlock(b)) == b <==> forall i :: 0 <= i < 4 ==> PaddedEntry(b.fileEntries[i])
  {
    SwapHeaderTwice(b);
    SwapEntriesTwice(b);
    var twice := SwapBlock(SwapBlock(b));
    var e, f := b.fileEntries, twice.fileEntries;
    forall i | 0 <= i < 4 ensures f[i] == e[i] <==> PaddedEntry(e[i]) {
      SwapEntryTwice(e[i]);
    }
    assert twice == b <==> f == e;
    assert f == e <==> forall i :: 0 <= i < 4 ==> f[i] == e[i];
  }

  /* ---------- the 512-byte image ---------- */

  function EntryImage(e: FileEntry): (s: seq<Byte>)
    ensures |s| == 112
  {
    e.fileName + LittleEndian(e.startAddress, 8) + LittleEndian(e.blockCount, 8) + LittleEndian(e.size, 8)
    + e.createDate + e.createTime + [e.timeType] + e.reserved + e.closeTime
  }

  function BlockHeader(b: DirBlock): (s: seq<Byte>)
    ensures |s| == 64
  {
    b.magicNumber + [b.revisionNumber, b.shutDown] + LittleEndian(b.numberOfFileEntries, 2)
    + LittleEndian(b.currBlock, 4) + b.volumeName
    + LittleEndian(b.forwardLink, 8) + LittleEndian(b.reverseLink, 8)
  }

  // The bytes of the C structure, as DiskWrite puts them on the cartridge:
  // the header and behind it the four entries.
  function BlockImage(b: DirBlock): Sector {
    seq(512, i requires 0 <= i < 512 => ImageByte(b, i))
  }

  function ImageByte(b: DirBlock, i: nat): Byte
    requires i < 512
  {
    if i < 64 then BlockHeader(b)[i] else EntryImage(b.fileEntries[(i - 64) / 112])[(i - 64) % 112]
  }

  lemma BlockImageParts(b: DirBlock)
    ensures BlockImage(b)[..64] == BlockHeader(b)
    ensures forall i :: 0 <= i < 4 ==>
      BlockImage(b)[64 + 112 * i..64 + 112 * (i + 1)] == EntryImage(b.fileEntries[i])
  {
    hide BlockHeader, EntryImage;
    forall i | 0 <= i < 4
      ensures BlockImage(b)[64 + 112 * i..64 + 112 * (i + 1)] == EntryImage(b.fileEntries[i])
    {
      forall k | 0 <= k < 112
        ensures BlockImage(b)[64 + 112 * i..64 + 112 * (i + 1)][k] == EntryImage(b.fileEntries[i])[k]
      {
        assert (112 * i + k) / 112 == i && (112 * i + k) % 112 == k;
      }
    }
  }

  function Get16(s: seq<Byte>): U16
    requires |s| == 2
  {
    LittleEndianEncodes(s);
    PowersOf256();
    FromLittleEndian(s)
  }

  function Get32(s: seq<Byte>): U32
    requires |s| == 4
  {
    LittleEndianEncodes(s);
    PowersOf256();
    FromLittleEndian(s)
  }

  function Get64(s: seq<Byte>): U64
    requires |s| == 8
  {
    LittleEndianEncodes(s);
    PowersOf256();
    FromLittleEndian(s)
  }

  function EntryFromImage(s: seq<Byte>): FileEntry
    requires |s| == 112
  {
    FileEntry(s[..56], Get64(s[56..64]), Get64(s[64..72]), Get64(s[72..80]),
              s[80..88], s[88..96], s[96], s[97..104], s[104..])
  }

  // The C structure that DiskRead leaves in memory.
  function BlockFromImage(s: Sector): DirBlock {
    DirBlock(s[..8], s[8], s[9], Get16(s[10..12]), Get32(s[12..16]), s[16..48], Get64(s[48..56]), Get64(s[56..64]),
             seq(4, i requires 0 <= i < 4 => EntryFromImage(s[64 + 112 * i..64 + 112 * (i + 1)])))
  }

  // Where the nine fields of an entry sit.
  lemma EntrySlices(n: seq<Byte>, a: seq<Byte>, c: seq<Byte>, z: seq<Byte>, d: seq<Byte>, t: seq<Byte>,
                    k: seq<Byte>, r: seq<Byte>, e: seq<Byte>)
    requires |n| == 56 && |a| == |c| == |z| == |d| == |t| == 8 && |k| == 1 && |r| == 7 && |e| == 8
    ensures var s := n + a + c + z + d + t + k + r + e;
      s[..56] == n && s[56..64] == a && s[64..72] == c && s[72..80] == z && s[80..88] == d
      && s[88..96] == t && s[96..97] == k && s[97..104] == r && s[104..] == e
  {
  }

  lemma EntryImageRoundTrip(e: FileEntry)
    ensures EntryFromImage(EntryImage(e)) == e
  {
    PowersOf256();
    LittleEndianDecodes(e.startAddress, 8);
    LittleEndianDecodes(e.blockCount, 8);
    LittleEndianDecodes(e.size, 8);
    EntrySlices(e.fileName, LittleEndian(e.startAddress, 8), LittleEndian(e.blockCount, 8), LittleEndian(e.size, 8),
                e.createDate, e.createTime, [e.timeType], e.reserved, e.closeTime);
    var s := EntryImage(e);
    assert s[96] == s[96..97][0];
  }

  // Where the fields of the header sit.
  lemma HeaderSlices(m: seq<Byte>, x: seq<Byte>, n: seq<Byte>, c: seq<Byte>, v: seq<Byte>, f: seq<Byte>, r: seq<Byte>)
    requires |m| == 8 && |x| == |n| == 2 && |c| == 4 && |v| == 32 && |f| == |r| == 8
    ensures var h := m + x + n + c + v + f + r;
      h[..8] == m && h[8] == x[0] && h[9] == x[1] && h[10..12] == n && h[12..16] == c && h[16..48] == v
      && h[48..56] == f && h[56..64] == r
  {
  }

  lemma HeaderRoundTrip(b: DirBlock)
    ensures var h := BlockHeader(b);
      h[..8] == b.magicNumber && h[8] == b.revisionNumber && h[9] == b.shutDown
      && Get16(h[10..12]) == b.numberOfFileEntries && Get32(h[12..16]) == b.currBlock
      && h[16..48] == b.volumeName && Get64(h[48..56]) == b.forwardLink && Get64(h[56..64]) == b.reverseLink
  {
    PowersOf256();
    LittleEndianDecodes(b.numberOfFileEntries, 2);
    LittleEndianDecodes(b.currBlock, 4);
    LittleEndianDecodes(b.forwardLink, 8);
    LittleEndianDecodes(b.reverseLink, 8);
    HeaderSlices(b.magicNumber, [b.revisionNumber, b.shutDown], LittleEndian(b.numberOfFileEntries, 2),
                 LittleEndian(b.currBlock, 4), b.volumeName, LittleEndian(b.forwardLink, 8),
                 LittleEndian(b.reverseLink, 8));
  }

  // The 512-byte image of a directory block determines the block.
  lemma BlockImageRoundTrip(b: DirBlock)
    ensures BlockFromImage(BlockImage(b)) == b
  {
    var s := BlockImage(b);
    BlockImageParts(b);
    HeaderRoundTrip(b);
    HeaderOfSlice(s);
    forall i | 0 <= i < 4 ensures BlockFromImage(s).fileEntries[i] == b.fileEntries[i] {
      EntryImageRoundTrip(b.fileEntries[i]);
    }
    hide BlockHeader, BlockImage, EntryImage, EntryFromImage, Get16, Get32, Get64;
    assert BlockFromImage(s).fileEntries == b.fileEntries;
  }

  lemma HeaderOfSlice(s: Sector)
    ensures var h := s[..64];
      s[..8] == h[..8] && s[8] == h[8] && s[9] == h[9] && s[10..12] == h[10..12] && s[12..16] == h[12..16]
      && s[16..48] == h[16..48] && s[48..56] == h[48..56] && s[56..64] == h[56..64]
  {
  }

  // Storing a block: swap, then write the image.  Loading: read, then swap.
  function StoreBlock(b: DirBlock): Sector {
    BlockImage(SwapBlock(b))
  }

  function LoadBlock(s: Sector): DirBlock {
    SwapBlock(BlockFromImage(s))
  }

  // What a stored block looks like to the next power-up: header and every
  // zero-padded entry are unchanged.
  lemma LoadsWhatWasStored(b: DirBlock)
    ensures LoadBlock(StoreBlock(b)) == b.(fileEntries := LoadBlock(StoreBlock(b)).fileEntries)
    ensures forall i :: 0 <= i < 4 && PaddedEntry(b.fileEntries[i]) ==>
      LoadBlock(StoreBlock(b)).fileEntries[i] == b.fileEntries[i]
    ensures BlockFromImage(StoreBlock(b)).magicNumber == b.magicNumber
  {
    BlockImageRoundTrip(SwapBlock(b));
    SwapHeaderTwice(b);
    SwapEntriesTwice(b);
    forall i | 0 <= i < 4 && PaddedEntry(b.fileEntries[i])
      ensures LoadBlock(StoreBlock(b)).fileEntries[i] == b.fileEntries[i]
    {
      SwapEntryTwice(b.fileEntries[i]);
    }
  }

  function BigEndianEntry(e: FileEntry): (s: seq<Byte>)
    ensures |s| == 112
  {
    Padded(e.fileName) + BigEndian(e.startAddress, 8) + BigEndian(e.blockCount, 8) + BigEndian(e.size, 8)
    + Padded(e.createDate) + Padded(e.createTime) + [e.timeType] + Padded(e.reserved) + Padded(e.closeTime)
  }

  function BigEndianHeader(b: DirBlock): (s: seq<Byte>)
    ensures |s| == 64
  {
    b.magicNumber + [b.revisionNumber, b.shutDown] + BigEndian(b.numberOfFileEntries, 2)
    + BigEndian(b.currBlock, 4) + b.volumeName + BigEndian(b.forwardLink, 8) + BigEndian(b.reverseLink, 8)
  }

  // On the cartridge every integer is big endian, as section 10.5.2 of
  // IRIG 106-07 Chapter 10 prescribes.
  lemma StoredBlockIsBigEndian(b: DirBlock)
    ensures StoreBlock(b)[..64] == BigEndianHeader(b)
    ensures forall i :: 0 <= i < 4 ==>
      StoreBlock(b)[64 + 112 * i..64 + 112 * (i + 1)] == BigEndianEntry(b.fileEntries[i])
  {
    SwappedHeaderIsBigEndian(b);
    BlockImageParts(SwapBlock(b));
    forall i | 0 <= i < 4 ensures EntryImage(SwapBlock(b).fileEntries[i]) == BigEndianEntry(b.fileEntries[i]) {
      SwappedEntryIsBigEndian(b.fileEntries[i]);
    }
    hide BlockImage, BlockHeader, EntryImage, BigEndianHeader, BigEndianEntry;
  }

  lemma SwappedHeaderIsBigEndian(b: DirBlock)
    ensures BlockHeader(SwapBlock(b)) == BigEndianHeader(b)
  {
    SwapIsBigEndian(b.numberOfFileEntries, 2);
    SwapIsBigEndian(b.currBlock, 4);
    SwapIsBigEndian(b.forwardLink, 8);
    SwapIsBigEndian(b.reverseLink, 8);
  }

  lemma SwappedEntryIsBigEndian(e: FileEntry)
    ensures EntryImage(SwapEntry(e)) == BigEndianEntry(e)
  {
    SwapIsBigEndian(e.startAddress, 8);
    SwapIsBigEndian(e.blockCount, 8);
    SwapIsBigEndian(e.size, 8);
  }

  // And so a loaded block is what a reader of big-endian bytes finds.
  lemma LoadedHeaderIsBigEndian(s: Sector)
    ensures var b := LoadBlock(s);
      && s[..8] == b.magicNumber && s[8] == b.revisionNumber && s[9] == b.shutDown
      && s[10..12] == BigEndian(b.numberOfFileEntries, 2) && s[12..16] == BigEndian(b.currBlock, 4)
      && s[16..48] == b.volumeName
      && s[48..56] == BigEndian(b.forwardLink, 8) && s[56..64] == BigEndian(b.reverseLink, 8)
  {
    PowersOf256();
    SwappedBytes(s[10..12], 2);
    SwappedBytes(s[12..16], 4);
    SwappedBytes(s[48..56], 8);
    SwappedBytes(s[56..64], 8);
  }

  lemma LoadedEntryIsBigEndian(s: Sector, i: nat)
    requires i < 4
    ensures var e, bytes := LoadBlock(s).fileEntries[i], s[64 + 112 * i..64 + 112 * (i + 1)];
      && e.fileName == Padded(bytes[..56])
      && bytes[56..64] == BigEndian(e.startAddress, 8) && bytes[64..72] == BigEndian(e.blockCount, 8)
      && bytes[72..80] == BigEndian(e.size, 8)
      && e.createDate == Padded(bytes[80..88]) && e.createTime == Padded(bytes[88..96]) && e.timeType == bytes[96]
      && e.reserved == Padded(bytes[97..104]) && e.closeTime == Padded(bytes[104..])
  {
    var bytes := s[64 + 112 * i..64 + 112 * (i + 1)];
    PowersOf256();
    SwappedBytes(bytes[56..64], 8);
    SwappedBytes(bytes[64..72], 8);
    SwappedBytes(bytes[72..80], 8);
  }

  lemma {:induction false} SwappedBytes(s: seq<Byte>, n: nat)
    requires |s| == n
    ensures FromLittleEndian(s) < Pow256(n) && s == BigEndian(Swap(FromLittleEndian(s), n), n)
  {
    var x := FromLittleEndian(s);
    LittleEndianEncodes(s);
    SwapIsInvolution(x, n);
    SwapIsBigEndian(Swap(x, n), n);
  }
}
