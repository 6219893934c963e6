// The event log as M23_EventProcessor.c keeps it: the ring, the event table
// and the cursors, updated in place.  Each method is proved against a step of
// module EventLog, or against what module EventChannel says is written.
module EventProcessor {
  import opened Bytes
  import opened EventLog
  import opened EventChannel

  class M23EventProcessor {
    const enabled: bool
    const events: array<Event>
    const eventTable: array<Description>
    var firstRecord: bool
    var eventCount: nat
    var currentStartEvent: nat
    var numEvents: int
    var end: nat
    var batchLeft: int

    ghost predicate Valid()
      reads this
    {
      events.Length == LOG_SIZE && eventTable.Length == MAX_NUM_EVENTS
      && eventCount < LOG_SIZE && currentStartEvent < LOG_SIZE && end < LOG_SIZE
    }

    ghost function State(): Log
      reads this, events, eventTable
      requires Valid()
    {
      Log(enabled, firstRecord, eventTable[..], events[..], eventCount, currentStartEvent, numEvents, end, batchLeft)
    }

    // Whether the priority of the event lets it into the log; uses up its
    // limit if so.
    method IsAdmitted(event: nat, recording: bool) returns (ok: bool)
      requires Valid() && event < MAX_NUM_EVENTS
      modifies eventTable
      ensures ok == !Barred(old(eventTable[event]), recording)
      ensures eventTable[..] == if ok then old(eventTable[..])[event := Admit(old(eventTable[event]), recording)]
                                else old(eventTable[..])
    {
      ok := true;
      var d := eventTable[event];
      if d.priority == 2 {
        if !recording {
          ok := UseUp(event);
        }
      } else if d.priority == 3 {
        ok := recording;
      } else if d.priority == 4 {
        ok := UseUp(event);
      } else if d.priority == 5 {
        if recording {
          ok := UseUp(event);
        } else {
          ok := false;
        }
      }
    }

    method UseUp(event: nat) returns (ok: bool)
      requires Valid() && event < MAX_NUM_EVENTS
      modifies eventTable
      ensures ok == (old(eventTable[event]).limit > 0)
      ensures var d := old(eventTable[event]);
        eventTable[..] == if ok then old(eventTable[..])[event := d.(limit := d.limit - 1)] else old(eventTable[..])
    {
      ok := eventTable[event].limit > 0;
      if ok {
        eventTable[event] := eventTable[event].(limit := eventTable[event].limit - 1);
      }
    }

    method Append(event: nat, recording: bool, stamp: Stamp)
      requires Valid() && 1 <= event < MAX_NUM_EVENTS
      modifies this`eventCount, this`numEvents, events, eventTable
      ensures Valid() && State() == Appended(old(State()), event, recording, stamp)
    {
      hide Info;
      var count := (eventTable[event].count + 1) % 0x1_0000_0000;
      eventTable[event] := eventTable[event].(count := count);
      events[eventCount] := Event(stamp.intraTimeLsw, stamp.intraTimeMsw, stamp.absTimeLsw, stamp.absTimeMsw,
                                  Info(event, count, recording));
      eventCount := eventCount + 1;
      numEvents := numEvents + 1;
      if eventCount > 4095 {
        eventCount := 0;
      }
    }

    method UpdateEvent(event: nat, recording: bool, stamp: Stamp) returns (ok: bool)
      requires Valid() && 1 <= event < MAX_NUM_EVENTS
      modifies this`eventCount, this`numEvents, events, eventTable
      ensures Valid() && State() == Next(old(State()), Update(event, recording, stamp))
      ensures ok == Logs(old(State()), Update(event, recording, stamp))
    {
      hide Appended;
      if !enabled || !firstRecord {
        return false;
      }
      ok := IsAdmitted(event, recording);
      if ok {
        Append(event, recording, stamp);
      }
    }

    method UpdateM1553Event(event: int, recording: bool, stamp: Stamp) returns (refused: bool)
      requires Valid() && event < MAX_NUM_EVENTS
      modifies this`eventCount, this`numEvents, events, eventTable
      ensures Valid() && State() == Next(old(State()), UpdateM1553(event, recording, stamp))
      ensures refused == (enabled && event >= 1 && Barred(old(eventTable[event]), recording))
    {
      hide Appended;
      refused := false;
      if !enabled || event < 1 {
        return;
      }
      var ok := IsAdmitted(event, recording);
      if !ok {
        return true;
      }
      Append(event, recording, stamp);
    }

    method UpdateRecordEvent(event: nat, stamp: Stamp)
      requires Valid() && 1 <= event < MAX_NUM_EVENTS
      modifies this`firstRecord, this`eventCount, this`numEvents, events, eventTable
      ensures Valid() && State() == Next(old(State()), UpdateRecord(event, stamp))
    {
      if !enabled {
        return;
      }
      firstRecord := true;
      Append(event, true, stamp);
    }

    // The two words keep their value when nothing matches.
    method GetEventTime(number: int, occurrence: int, msw: U32, lsw: U32) returns (msw': U32, lsw': U32)
      requires Valid()
      ensures var i := Lookup(events[..], eventCount, number, occurrence);
        if i < 0 then msw' == msw && lsw' == lsw
        else msw' == events[i].absTimeMsw && lsw' == events[i].absTimeLsw
    {
      for i := 0 to eventCount
        invariant Lookup(events[..], i, number, occurrence) == -1
      {
        var info := events[i].eventInfo;
        if number == info % 0x1000 + 1 && occurrence == (info / 0x1000) % 0x1_0000 {
          FirstMatchStays(events[..], i, eventCount, number, occurrence);
          return events[i].absTimeMsw, events[i].absTimeLsw;
        }
      }
      return msw, lsw;
    }

    // One turn of the drain loop, behind its wait for the time packet.
    method Turn(recording: bool, timeOk: bool, ready: nat -> bool) returns (puts: seq<Put>)
      requires Valid()
      modifies this`currentStartEvent, this`numEvents, this`end, this`batchLeft
      ensures Valid() && State() == Next(old(State()), Tick(recording, Deliverable(timeOk, ready)))
      ensures Payload(puts) == Words(Emitted(old(State()), Tick(recording, Deliverable(timeOk, ready))))
    {
      if numEvents <= 0 || !recording {
        return [];
      }
      puts := Drain(timeOk, ready);
    }

    method Drain(timeOk: bool, ready: nat -> bool) returns (puts: seq<Put>)
      requires Valid() && Works(State(), true)
      modifies this`currentStartEvent, this`numEvents, this`end, this`batchLeft
      ensures Valid() && State() == Ticked(old(State()), true)
      ensures Payload(puts) == if Deliverable(timeOk, ready) then Words(Batch(old(State()))) else []
    {
      hide Written, Deliverable;
      puts := [];
      if currentStartEvent + numEvents < 4095 {
        if numEvents > BATCH {
          end := currentStartEvent + BATCH;
          batchLeft := numEvents - BATCH;
        } else {
          end := currentStartEvent + numEvents;
          batchLeft := 0;
        }
        puts := WriteSmallBatch(currentStartEvent, end, timeOk, ready);
      } else if 4095 - currentStartEvent > BATCH {
        end := currentStartEvent + BATCH;
        batchLeft := numEvents - BATCH;
        puts := WriteSmallBatch(currentStartEvent, end, timeOk, ready);
      } else if numEvents > BATCH {
        puts := WriteSmallBatch(currentStartEvent, 4095, timeOk, ready);
        batchLeft := 4095 - currentStartEvent;
        end := 0;
      }
      numEvents := batchLeft;
      currentStartEvent := end;
    }

    method WriteSmallBatch(start: nat, end: nat, timeOk: bool, ready: nat -> bool) returns (puts: seq<Put>)
      requires Valid() && start <= end <= LOG_SIZE && end - start <= 50
      ensures Payload(puts) == if Deliverable(timeOk, ready) then Words(events[start..end]) else []
    {
      hide Deliverable, Written;
      puts := WriteEventsToHost(start, end, timeOk, ready);
      SmallBatchPayload(events[start..end], timeOk, ready);
    }

    method WriteEventsToHost(start: nat, end: nat, timeOk: bool, ready: nat -> bool) returns (puts: seq<Put>)
      requires Valid() && start <= end <= LOG_SIZE
      ensures puts == Written(events[start..end], timeOk, ready)
    {
      hide ChunksSent, ChunkPuts, ChannelHeader, Words, WordPuts;
      ghost var range := events[start..end];
      puts := [];
      if !timeOk {
        return;
      }
      var length := (end - start) * 20;
      var bytesToWrite := if length < CHUNK_BYTES then length else CHUNK_BYTES;
      var word, count, readyCount, polls := 0, 0, 0, 0;
      ghost var k := 0;
      while true
        invariant k < Chunks(|range|) && readyCount <= MAX_NOT_READY
        invariant count == CHUNK_BYTES * k && word == 500 * k && count <= length
        invariant bytesToWrite == if length - count < CHUNK_BYTES then length - count else CHUNK_BYTES
        invariant puts == Puts(range, k)
        invariant ChunksSent(ready, 0, Chunks(|range|), 0)
               == k + ChunksSent(ready, polls, Chunks(|range|) - k, readyCount)
        decreases Chunks(|range|) - k + MAX_NOT_READY - readyCount
      {
        ChunksSentStep(ready, polls, Chunks(|range|) - k, readyCount);
        polls := polls + 1;
        if ready(polls - 1) {
          var chunk := WriteChunk(start, end, word, bytesToWrite / 2, count == 0);
          ChunkIs(range, k);
          puts := puts + chunk;
          word := word + bytesToWrite / 2;
          count := count + bytesToWrite;
          k := k + 1;
          if count >= length {
            break;
          }
          bytesToWrite := if length - count < CHUNK_BYTES then length - count else CHUNK_BYTES;
        } else {
          readyCount := readyCount + 1;
          if readyCount > MAX_NOT_READY {
            break;
          }
        }
      }
    }

    // One filling of the FIFO.
    method WriteChunk(start: nat, end: nat, word: nat, words: nat, first: bool) returns (puts: seq<Put>)
      requires Valid() && start <= end <= LOG_SIZE && word + words <= 10 * (end - start)
      ensures puts == ChannelHeader(end - start) + WordPuts(Words(events[start..end])[word..word + words])
                      + if first then [PacketReady] else []
    {
      hide Words, EventWords;
      ghost var range := events[start..end];
      puts := [Length((end - start) * 20), Csdw(end - start), ChannelId(EVENT_CHANNEL_ID)];
      ghost var header := puts;
      var pointer := word;
      for i := 0 to words
        invariant pointer == word + i
        invariant puts == header + WordPuts(Words(range)[word..word + i])
      {
        WordAt(range, pointer);
        assert range[pointer / 10] == events[start + pointer / 10];
        assert Words(range)[word..word + i + 1] == Words(range)[word..word + i] + [Words(range)[pointer]];
        puts := puts + [Word(EventWords(events[start + pointer / 10])[pointer % 10])];
        pointer := pointer + 1;
      }
      if first {
        puts := puts + [PacketReady];
      }
    }
  }
}
