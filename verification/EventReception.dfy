// What a receiver makes of the register writes of m23_WriteEventsToHost.
module EventReception {
  import opened Bytes
  import opened EventLog
  import opened EventChannel

  // One entry of an event packet, as the structure CH_10_EVENT lays it out:
  // five 32-bit words, low halves first - relative time, low and high,
  // absolute time, low and high, and the event word.
  predicate IsRecord(w: seq<U16>, e: Event)
    requires |w| == 10
  {
    var a: int, b: int, c: int, d: int, f: int := w[0], w[2], w[4], w[6], w[8];
    && e.intraTimeLsw == a + 0x1_0000 * w[1] as int && e.intraTimeMsw == b + 0x1_0000 * w[3] as int
    && e.absTimeLsw == c + 0x1_0000 * w[5] as int && e.absTimeMsw == d + 0x1_0000 * w[7] as int
    && e.eventInfo == f + 0x1_0000 * w[9] as int
  }

  lemma {:induction false} RecordAt(events: seq<Event>, i: nat)
    requires i < |events|
    ensures IsRecord(Words(events)[10 * i..10 * (i + 1)], events[i])
  {
    var w := Words(events)[10 * i..10 * (i + 1)];
    hide Words, EventWords;
    forall k | 0 <= k < 10 ensures w[k] == EventWords(events[i])[k] {
      WordAt(events, 10 * i + k);
      assert (10 * i + k) / 10 == i && (10 * i + k) % 10 == k;
    }
    assert w == EventWords(events[i]);
    WordsOfRecord(events[i]);
  }

  lemma WordsOfRecord(e: Event)
    ensures IsRecord(EventWords(e), e)
  {
  }

  // Every chunk says how long the whole packet is, how many events it has and
  // for which channel it is.
  ghost predicate Announces(puts: seq<Put>, n: nat) {
    forall i :: 0 <= i < |puts| ==>
      match puts[i]
      case Length(bytes) => bytes == 20 * n
      case Csdw(events) => events == n
      case ChannelId(id) => id == 0x8000 + 0x1_0000 * 2
      case _ => true
  }

  // How many chunks were begun.
  function ChunksIn(puts: seq<Put>): nat {
    if puts == [] then 0
    else ChunksIn(puts[..|puts| - 1]) + if puts[|puts| - 1].ChannelId? then 1 else 0
  }

  lemma {:induction false} ChunksAnnounce(events: seq<Event>, k: nat)
    requires k <= Chunks(|events|)
    ensures Announces(Puts(events, k), |events|) && ChunksIn(Puts(events, k)) == k
    ensures k > 0 ==> |Puts(events, k)| >= 3 && Puts(events, k)[..3] == ChannelHeader(|events|)
  {
    if k > 0 {
      hide Words, Announces, ChunksIn, ChunkPuts, ChannelHeader, Chunks;
      ChunksAnnounce(events, k - 1);
      ChunkAnnounces(events, k - 1);
      ChunksAddUp(Puts(events, k - 1), ChunkPuts(events, k - 1));
      AnnouncesBoth(Puts(events, k - 1), ChunkPuts(events, k - 1), |events|);
      if k > 1 {
        assert Puts(events, k)[..3] == Puts(events, k - 1)[..3];
      } else {
        assert Puts(events, k - 1) == [] && [] + ChunkPuts(events, 0) == ChunkPuts(events, 0);
      }
    } else {
      hide Words, ChunkPuts;
    }
  }

  lemma {:induction false} ChunkAnnounces(events: seq<Event>, j: nat)
    requires j < Chunks(|events|)
    ensures Announces(ChunkPuts(events, j), |events|) && ChunksIn(ChunkPuts(events, j)) == 1
    ensures |ChunkPuts(events, j)| >= 3 && ChunkPuts(events, j)[..3] == ChannelHeader(|events|)
    ensures ChannelHeader(|events|) == [Length(20 * |events|), Csdw(|events|), ChannelId(EVENT_CHANNEL_ID)]
  {
    hide Words, ChunkWords, Chunks, Announces, ChunksIn;
    var n, words, last := |events|, ChunkWords(events, j), if j == 0 then [PacketReady] else [];
    PartsAnnounce(n, words, j == 0);
    AnnouncesBoth(ChannelHeader(n), WordPuts(words), n);
    AnnouncesBoth(ChannelHeader(n) + WordPuts(words), last, n);
    HeaderIsOne(n);
    WordsAreNoChunk(ChannelHeader(n), words);
    ChunksAddUp(ChannelHeader(n) + WordPuts(words), last);
    NoChunk(j == 0);
  }

  lemma PartsAnnounce(n: nat, words: seq<U16>, first: bool)
    ensures Announces(ChannelHeader(n), n) && Announces(WordPuts(words), n)
    ensures Announces(if first then [PacketReady] else [], n)
  {
  }

  lemma {:induction false} HeaderIsOne(n: nat)
    ensures ChunksIn(ChannelHeader(n)) == 1
  {
    var a, b, c := Length(20 * n), Csdw(n), ChannelId(EVENT_CHANNEL_ID);
    OneMorePut([], a);
    OneMorePut([a], b);
    OneMorePut([a] + [b], c);
    assert [] + [a] == [a] && ChannelHeader(n) == [a] + [b] + [c];
  }

  lemma {:induction false} NoChunk(first: bool)
    ensures ChunksIn(if first then [PacketReady] else []) == 0
  {
    assert [PacketReady][..0] == [];
  }

  lemma AnnouncesBoth(a: seq<Put>, b: seq<Put>, n: nat)
    requires Announces(a, n) && Announces(b, n)
    ensures Announces(a + b, n)
  {
  }

  lemma {:induction false} ChunksAddUp(a: seq<Put>, b: seq<Put>)
    ensures ChunksIn(a + b) == ChunksIn(a) + ChunksIn(b)
  {
    if b == [] {
      assert a + b == a;
    } else {
      var n := |b| - 1;
      ChunksAddUp(a, b[..n]);
      OneMorePut(a + b[..n], b[n]);
      assert a + b == a + b[..n] + [b[n]];
    }
  }

  lemma {:induction false} OneMorePut(puts: seq<Put>, p: Put)
    ensures ChunksIn(puts + [p]) == ChunksIn(puts) + if p.ChannelId? then 1 else 0
  {
    assert (puts + [p])[..|puts|] == puts;
  }

  lemma {:induction false} WordsAreNoChunk(puts: seq<Put>, words: seq<U16>)
    ensures ChunksIn(puts + WordPuts(words)) == ChunksIn(puts)
  {
    if words == [] {
      assert puts + WordPuts(words) == puts;
    } else {
      var n := |words| - 1;
      WordsAreNoChunk(puts, words[..n]);
      OneMorePut(puts + WordPuts(words[..n]), Word(words[n]));
      assert puts + WordPuts(words) == puts + WordPuts(words[..n]) + [Word(words[n])];
    }
  }

  // When the FIFO is found empty in time, the receiver gets every event of the
  // range, in order, in chunks of up to 500 words.
  lemma {:induction false} EveryEventArrives(events: seq<Event>, ready: nat -> bool, n: nat, i: nat)
    requires InTime(ready, 0, Chunks(|events|), 0, n) && i < |events|
    ensures var puts := Written(events, true, ready);
      && Announces(puts, |events|) && ChunksIn(puts) == (|events| + 49) / 50
      && |Payload(puts)| == 10 * |events| && IsRecord(Payload(puts)[10 * i..10 * (i + 1)], events[i])
  {
    AllChunksSent(ready, 0, Chunks(|events|), 0);
    var k := Chunks(|events|);
    assert Written(events, true, ready) == Puts(events, k);
    hide InTime, ChunksSent, Written, Words, IsRecord, Payload, Announces, ChunksIn, Puts, Chunks, FirstWords;
    ChunksAnnounce(events, k);
    PutsCarryTheWords(events, k);
    AllWords(events);
    RecordAt(events, i);
  }

  lemma {:induction false} AllWords(events: seq<Event>)
    requires events != []
    ensures FirstWords(events, Chunks(|events|)) == Words(events) && Chunks(|events|) == (|events| + 49) / 50
  {
    hide Words;
    assert Words(events)[..10 * |events|] == Words(events);
  }
}
