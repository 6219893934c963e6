// The chunked writer of m23_WriteEventsToHost (M23_EventProcessor.c): what it
// puts into the registers of the event channel, and when it gives up.
module EventChannel {
  import opened Bytes
  import opened EventLog

  // Register writes of the event channel.
  datatype Put = Length(bytes: nat) | Csdw(events: nat) | ChannelId(id: nat) | PacketReady | Word(word: U16)

  const EVENT_CHANNEL_ID := 0x2_8000
  const CHUNK_BYTES := 1000
  const MAX_NOT_READY := 100

  function HalfWords(x: U32): (s: seq<U16>)
    ensures |s| == 2
  {
    [x % 0x1_0000, x / 0x1_0000]
  }

  function EventWords(e: Event): (s: seq<U16>)
    ensures |s| == 10
  {
    HalfWords(e.intraTimeLsw) + HalfWords(e.intraTimeMsw) + HalfWords(e.absTimeLsw) + HalfWords(e.absTimeMsw)
    + HalfWords(e.eventInfo)
  }

  function Words(events: seq<Event>): (s: seq<U16>)
    ensures |s| == 10 * |events|
  {
    if events == [] then [] else Words(events[..|events| - 1]) + EventWords(events[|events| - 1])
  }

  lemma {:induction false} WordAt(events: seq<Event>, w: nat)
    requires w < 10 * |events|
    ensures Words(events)[w] == EventWords(events[w / 10])[w % 10]
  {
    var n := |events| - 1;
    if w < 10 * n {
      WordAt(events[..n], w);
    }
  }

  // Chunks of at most 1000 bytes; an empty range still makes one.
  function Chunks(n: nat): (c: nat)
    ensures c >= 1
  {
    if n == 0 then 1 else (20 * n + CHUNK_BYTES - 1) / CHUNK_BYTES
  }

  function Min(a: nat, b: nat): nat {
    if a < b then a else b
  }

  function WordPuts(words: seq<U16>): (p: seq<Put>)
    ensures |p| == |words|
  {
    seq(|words|, i requires 0 <= i < |words| => Word(words[i]))
  }

  // The words of the first k chunks, and those of chunk j.
  function FirstWords(events: seq<Event>, k: nat): seq<U16> {
    Words(events)[..Min(500 * k, 10 * |events|)]
  }

  function ChunkWords(events: seq<Event>, j: nat): seq<U16>
    requires j < Chunks(|events|)
  {
    Words(events)[500 * j..Min(500 * (j + 1), 10 * |events|)]
  }

  function ChannelHeader(n: nat): seq<Put> {
    [Length(20 * n), Csdw(n), ChannelId(EVENT_CHANNEL_ID)]
  }

  function ChunkPuts(events: seq<Event>, j: nat): seq<Put>
    requires j < Chunks(|events|)
  {
    ChannelHeader(|events|) + WordPuts(ChunkWords(events, j))
    + if j == 0 then [PacketReady] else []
  }

  // What the first k chunks write.
  function Puts(events: seq<Event>, k: nat): seq<Put>
    requires k <= Chunks(|events|)
  {
    if k == 0 then [] else Puts(events, k - 1) + ChunkPuts(events, k - 1)
  }

  function Payload(puts: seq<Put>): seq<U16> {
    if puts == [] then []
    else
      var p := puts[|puts| - 1];
      Payload(puts[..|puts| - 1]) + if p.Word? then [p.word] else []
  }

  function PacketReadies(puts: seq<Put>): nat {
    if puts == [] then 0
    else PacketReadies(puts[..|puts| - 1]) + if puts[|puts| - 1].PacketReady? then 1 else 0
  }

  lemma {:induction false} PayloadOfWords(puts: seq<Put>, words: seq<U16>)
    ensures Payload(puts + WordPuts(words)) == Payload(puts) + words
    ensures PacketReadies(puts + WordPuts(words)) == PacketReadies(puts)
  {
    if words == [] {
      assert puts + WordPuts(words) == puts;
    } else {
      var n := |words| - 1;
      PayloadOfWords(puts, words[..n]);
      var all := puts + WordPuts(words);
      assert all[..|all| - 1] == puts + WordPuts(words[..n]);
      assert words == words[..n] + [words[n]];
    }
  }

  lemma {:induction false} PayloadOfOther(puts: seq<Put>, p: Put)
    ensures Payload(puts + [p]) == Payload(puts) + if p.Word? then [p.word] else []
    ensures PacketReadies(puts + [p]) == PacketReadies(puts) + if p.PacketReady? then 1 else 0
  {
    assert (puts + [p])[..|puts|] == puts;
  }

  // Chunk by chunk the words of the range come out in order, under a single
  // packet-ready.
  lemma {:induction false} PutsCarryTheWords(events: seq<Event>, k: nat)
    requires k <= Chunks(|events|)
    ensures Payload(Puts(events, k)) == FirstWords(events, k)
    ensures PacketReadies(Puts(events, k)) == Min(k, 1)
  {
    if k > 0 {
      hide Payload, PacketReadies, FirstWords, ChunkPuts, Chunks;
      var j := k - 1;
      PutsCarryTheWords(events, j);
      ChunkCarriesTheWords(Puts(events, j), events, j);
    }
  }

  lemma {:induction false} ChunkCarriesTheWords(before: seq<Put>, events: seq<Event>, j: nat)
    requires j < Chunks(|events|) && Payload(before) == FirstWords(events, j)
    ensures Payload(before + ChunkPuts(events, j)) == FirstWords(events, j + 1)
    ensures PacketReadies(before + ChunkPuts(events, j)) == PacketReadies(before) + if j == 0 then 1 else 0
  {
    NextWords(events, j);
    hide Words, WordPuts, Payload, PacketReadies, FirstWords, ChunkWords, ChannelHeader;
    var header := before + ChannelHeader(|events|);
    var puts, last := WordPuts(ChunkWords(events, j)), if j == 0 then [PacketReady] else [];
    HeaderCarriesNoWords(before, |events|);
    PayloadOfWords(header, ChunkWords(events, j));
    LastPut(header + puts, j == 0);
    Associates(before, ChannelHeader(|events|), puts, last);
  }

  lemma Associates(a: seq<Put>, b: seq<Put>, c: seq<Put>, d: seq<Put>)
    ensures a + (b + c + d) == a + b + c + d
  {
  }

  lemma {:induction false} HeaderCarriesNoWords(before: seq<Put>, n: nat)
    ensures Payload(before + ChannelHeader(n)) == Payload(before)
    ensures PacketReadies(before + ChannelHeader(n)) == PacketReadies(before)
  {
    hide Payload, PacketReadies;
    var a, b, c := Length(20 * n), Csdw(n), ChannelId(EVENT_CHANNEL_ID);
    PayloadOfOther(before, a);
    PayloadOfOther(before + [a], b);
    PayloadOfOther(before + [a] + [b], c);
    assert before + ChannelHeader(n) == before + [a] + [b] + [c];
  }

  lemma {:induction false} LastPut(puts: seq<Put>, first: bool)
    ensures Payload(puts + if first then [PacketReady] else []) == Payload(puts)
    ensures PacketReadies(puts + if first then [PacketReady] else []) == PacketReadies(puts) + if first then 1 else 0
  {
    PayloadOfOther(puts, PacketReady);
    assert puts + [] == puts;
  }

  lemma NextWords(events: seq<Event>, j: nat)
    requires j < Chunks(|events|)
    ensures FirstWords(events, j + 1) == FirstWords(events, j) + ChunkWords(events, j)
  {
  }

  // Chunks written when read i of the FIFO flag yields ready(i): the writer
  // gives up at the 101st read that finds the FIFO busy.
  function ChunksSent(ready: nat -> bool, at: nat, left: nat, missed: nat): (k: nat)
    requires left >= 1 && missed <= MAX_NOT_READY
    ensures k <= left
    decreases left + MAX_NOT_READY - missed
  {
    if ready(at) then
      if left == 1 then 1 else 1 + ChunksSent(ready, at + 1, left - 1, missed)
    else if missed + 1 > MAX_NOT_READY then 0
    else ChunksSent(ready, at + 1, left, missed + 1)
  }

  // Reads from at on, n of them, that find the FIFO empty.
  function Hits(ready: nat -> bool, at: nat, n: nat): (h: nat)
    ensures h <= n
    decreases n
  {
    if n == 0 then 0
    else (if ready(at) then 1 else 0) + Hits(ready, at + 1, n - 1)
  }

  ghost predicate InTime(ready: nat -> bool, at: nat, left: nat, missed: nat, n: nat) {
    Hits(ready, at, n) >= left && missed + n - Hits(ready, at, n) <= 100
  }

  // Everything is written exactly when the FIFO is found empty often enough
  // before it is found busy more than 100 times.
  lemma {:induction false} AllChunksSent(ready: nat -> bool, at: nat, left: nat, missed: nat)
    requires left >= 1 && missed <= MAX_NOT_READY
    ensures ChunksSent(ready, at, left, missed) == left <==> exists n: nat :: InTime(ready, at, left, missed, n)
    decreases left + MAX_NOT_READY - missed
  {
    if ready(at) && left == 1 {
      assert Hits(ready, at, 1) == 1 + Hits(ready, at + 1, 0);
      assert InTime(ready, at, left, missed, 1);
    } else if ready(at) {
      AllChunksSent(ready, at + 1, left - 1, missed);
      ShiftInTime(ready, at, left, missed, at + 1, left - 1, missed);
    } else if missed + 1 > MAX_NOT_READY {
    } else {
      AllChunksSent(ready, at + 1, left, missed + 1);
      ShiftInTime(ready, at, left, missed, at + 1, left, missed + 1);
    }
  }

  lemma ShiftInTime(ready: nat -> bool, at: nat, left: nat, missed: nat, at': nat, left': nat, missed': nat)
    requires left >= 1 && at' == at + 1
    requires if ready(at) then left' == left - 1 && missed' == missed else left' == left && missed' == missed + 1
    ensures (exists n: nat :: InTime(ready, at, left, missed, n))
       <==> exists n: nat :: InTime(ready, at', left', missed', n)
  {
    if n: nat :| InTime(ready, at, left, missed, n) {
      assert InTime(ready, at', left', missed', n - 1);
    }
    if n: nat :| InTime(ready, at', left', missed', n) {
      assert Hits(ready, at, n + 1) == (if ready(at) then 1 else 0) + Hits(ready, at + 1, n);
      assert InTime(ready, at, left, missed, n + 1);
    }
  }

  function Written(events: seq<Event>, timeOk: bool, ready: nat -> bool): seq<Put> {
    if timeOk then Puts(events, ChunksSent(ready, 0, Chunks(|events|), 0)) else []
  }

  // Whether a batch of at most 50 events goes out.
  ghost predicate Deliverable(timeOk: bool, ready: nat -> bool) {
    timeOk && exists n: nat :: InTime(ready, 0, 1, 0, n)
  }

  lemma {:induction false} SmallBatchPayload(events: seq<Event>, timeOk: bool, ready: nat -> bool)
    requires |events| <= 50
    ensures Payload(Written(events, timeOk, ready)) == if Deliverable(timeOk, ready) then Words(events) else []
  {
    OneChunkHasAllWords(events);
    assert Payload([]) == [];
    hide InTime, Puts, Payload, Words, FirstWords, ChunksSent;
    AllChunksSent(ready, 0, 1, 0);
    PutsCarryTheWords(events, ChunksSent(ready, 0, 1, 0));
  }

  lemma {:induction false} OneChunkHasAllWords(events: seq<Event>)
    requires |events| <= 50
    ensures Chunks(|events|) == 1
    ensures FirstWords(events, 0) == [] && FirstWords(events, 1) == Words(events)
  {
    hide Words;
    assert Words(events)[..10 * |events|] == Words(events);
  }

  lemma ChunksSentStep(ready: nat -> bool, at: nat, left: nat, missed: nat)
    requires left >= 1 && missed <= MAX_NOT_READY
    ensures ChunksSent(ready, at, left, missed)
         == if ready(at) then if left == 1 then 1 else 1 + ChunksSent(ready, at + 1, left - 1, missed)
            else if missed + 1 > MAX_NOT_READY then 0
            else ChunksSent(ready, at + 1, left, missed + 1)
  {
  }

  lemma {:induction false} ChunkIs(events: seq<Event>, j: nat)
    requires j < Chunks(|events|)
    ensures ChunkPuts(events, j)
         == ChannelHeader(|events|) + WordPuts(Words(events)[500 * j..Min(500 * (j + 1), 10 * |events|)])
            + if j == 0 then [PacketReady] else []
  {
  }
}
