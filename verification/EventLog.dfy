// The event log of M23_EventProcessor.c: logging under the five priority
// rules, the lookup of an occurrence, and the drain in batches.
module EventLog {
  import opened Bytes
  import opened Bits

  const LOG_SIZE := 4096
  const MAX_NUM_EVENTS := 999
  const BATCH := 20
  // From one more logged event on the drain can drop some.
  const MAX_DRAINED := 4094

  /* ---------- one event ---------- */

  datatype Event = Event(intraTimeLsw: U32, intraTimeMsw: U32, absTimeLsw: U32, absTimeMsw: U32, eventInfo: U32)

  datatype Stamp = Stamp(intraTimeLsw: U32, intraTimeMsw: U32, absTimeLsw: U32, absTimeMsw: U32)

  // (event - 1) | (count << 12) | (recording << 28), in 32 bits.
  function Info(event: nat, count: U32, recording: bool): (info: U32)
    requires 1 <= event <= MAX_NUM_EVENTS
  {
    InfoBelow(event - 1, (count * 0x1000) % 0x1_0000_0000, if recording then 0x1000_0000 else 0);
    Or(Or(event - 1, (count * 0x1000) % 0x1_0000_0000), if recording then 0x1000_0000 else 0)
  }

  lemma {:induction false} InfoBelow(a: U32, b: U32, c: U32)
    ensures Or(Or(a, b), c) < 0x1_0000_0000
  {
    SmallPowers();
    OrBelow(a, b, 32);
    OrBelow(Or(a, b), c, 32);
  }

  lemma SmallPowers()
    ensures Power2(12) == 0x1000 && Power2(28) == 0x1000_0000 && Power2(32) == 0x1_0000_0000
  {
    assert Power2(6) == 64;
    assert Power2(12) == 0x1000;
    assert Power2(18) == 0x4_0000;
    assert Power2(24) == 0x100_0000;
    assert Power2(28) == 0x1000_0000;
    assert Power2(32) == 0x1_0000_0000;
  }

  function EventNumber(info: U32): nat {
    info % 0x1000 + 1
  }

  function Occurrence(info: U32): nat {
    (info / 0x1000) % 0x1_0000
  }

  // The packed word decodes back; occurrences are kept modulo 65536, even
  // when larger ones run into the recording flag.
  lemma InfoDecodes(event: nat, count: U32, recording: bool)
    requires 1 <= event <= MAX_NUM_EVENTS
    ensures EventNumber(Info(event, count, recording)) == event
    ensures Occurrence(Info(event, count, recording)) == count % 0x1_0000
  {
    hide Or, Low, Power2;
    var low := event - 1 + (count * 0x1000) % 0x1_0000_0000;
    NumberAndCount(event - 1, count);
    if recording {
      FlagBit(low);
      SameLowBits(low, Or(low, 0x1000_0000));
    } else {
      OrZero(low);
    }
  }

  lemma {:induction false} OrZero(x: nat)
    ensures Or(x, 0) == x
  {
  }

  // The event number and the shifted count share no bit.
  lemma {:induction false} NumberAndCount(number: nat, count: U32)
    requires number < 0x1000
    ensures var shifted := (count * 0x1000) % 0x1_0000_0000;
      Or(number, shifted) == number + shifted
      && (number + shifted) % 0x1000 == number && ((number + shifted) / 0x1000) % 0x1_0000 == count % 0x1_0000
  {
    hide Or, Low, Power2;
    var shifted := (count * 0x1000) % 0x1_0000_0000;
    assert shifted == 0x1000 * (count % 0x10_0000);
    Low12(shifted);
    SmallPowers();
    OrIsSum(number, shifted, 12);
  }

  // Setting bit 28 leaves the bits below it alone.
  lemma {:induction false} FlagBit(x: nat)
    ensures Or(x, 0x1000_0000) % 0x1000_0000 == x % 0x1000_0000
  {
    hide Or, Low, Power2;
    Low28(0x1000_0000);
    OrKeepsLowBits(x, 0x1000_0000, 28);
    Low28(x);
    Low28(Or(x, 0x1000_0000));
  }

  lemma {:induction false} Low12(x: nat)
    ensures Low(x, 12) == x % 0x1000
  {
    hide Low, Power2, High;
    SmallPowers();
    LowAndHigh(x, 12);
    Below12(Low(x, 12), High(x, 12));
  }

  lemma {:induction false} Low28(x: nat)
    ensures Low(x, 28) == x % 0x1000_0000
  {
    hide Low, Power2, High;
    SmallPowers();
    LowAndHigh(x, 28);
    Below28(Low(x, 28), High(x, 28));
  }

  lemma Below12(low: nat, high: nat)
    requires low < 0x1000
    ensures (low + 0x1000 * high) % 0x1000 == low
  {
  }

  lemma Below28(low: nat, high: nat)
    requires low < 0x1000_0000
    ensures (low + 0x1000_0000 * high) % 0x1000_0000 == low
  {
  }

  lemma SameLowBits(x: nat, y: nat)
    requires x % 0x1000_0000 == y % 0x1000_0000
    ensures x % 0x1000 == y % 0x1000
    ensures (x / 0x1000) % 0x1_0000 == (y / 0x1000) % 0x1_0000
  {
    FieldsOf(x);
    FieldsOf(y);
  }

  lemma FieldsOf(x: nat)
    ensures x % 0x1000 == (x % 0x1000_0000) % 0x1000
    ensures (x / 0x1000) % 0x1_0000 == (x % 0x1000_0000) / 0x1000
  {
  }

  /* ---------- the log ---------- */

  // What TMATS says about an event, how many more may be logged and how many
  // were.
  datatype Description = Description(priority: nat, limit: nat, count: U32)

  type Table = t: seq<Description> | |t| == MAX_NUM_EVENTS witness seq(MAX_NUM_EVENTS, _ => Description(1, 0, 0))
  type Ring = r: seq<Event> | |r| == LOG_SIZE witness seq(LOG_SIZE, _ => Event(0, 0, 0, 0, 0))

  // end and batchLeft are variables of the drain loop that outlive a tick.
  datatype Log = Log(
    enabled: bool,          // EventsAreEnabled
    firstRecord: bool,      // Events.FirstRecord
    table: Table,           // EventTable
    events: Ring,           // Events.Event
    eventCount: nat,        // Events.EventCount
    start: nat,             // CurrentStartEvent
    pending: int,           // NumEvents
    end: nat,
    batchLeft: int)

  ghost predicate WellFormed(l: Log) {
    l.eventCount < LOG_SIZE && l.start < LOG_SIZE && l.end < LOG_SIZE
  }

  // m23_InitializeEvents; the loop's own variables start undefined.
  ghost predicate Initial(l: Log) {
    WellFormed(l) && l.eventCount == 0 && l.start == 0 && l.pending == 0
    && forall e :: 0 <= e < MAX_NUM_EVENTS ==> l.table[e].count == 0
  }

  // The priority rules: 2 limits events outside a recording, 3 bars them
  // there, 4 limits all, 5 limits those in a recording and bars the others.
  predicate Barred(d: Description, recording: bool) {
    match d.priority
    case 2 => !recording && d.limit == 0
    case 3 => !recording
    case 4 => d.limit == 0
    case 5 => !recording || d.limit == 0
    case _ => false
  }

  predicate Charged(priority: nat, recording: bool) {
    match priority
    case 2 => !recording
    case 4 => true
    case 5 => recording
    case _ => false
  }

  function Admit(d: Description, recording: bool): Description
    requires !Barred(d, recording)
  {
    if Charged(d.priority, recording) then d.(limit := d.limit - 1) else d
  }

  // Behind the priority rules: count the occurrence, append, wrap at 4096.
  function Appended(l: Log, event: nat, recording: bool, t: Stamp): (r: Log)
    requires WellFormed(l) && 1 <= event < MAX_NUM_EVENTS
    ensures WellFormed(r)
  {
    var d := l.table[event].(count := (l.table[event].count + 1) % 0x1_0000_0000);
    var e := Event(t.intraTimeLsw, t.intraTimeMsw, t.absTimeLsw, t.absTimeMsw, Info(event, d.count, recording));
    l.(table := l.table[event := d], events := l.events[l.eventCount := e],
       eventCount := if l.eventCount + 1 > 4095 then 0 else l.eventCount + 1, pending := l.pending + 1)
  }

  /* ---------- steps ---------- */

  datatype Step =
    | Update(event: int, recording: bool, stamp: Stamp)        // m23_UpdateEvent
    | UpdateM1553(event: int, recording: bool, stamp: Stamp)   // m23_Update_M1553_Event
    | UpdateRecord(event: int, stamp: Stamp)                   // m23_UpdateRecordEvent
    | Tick(recording: bool, delivered: bool)                   // one turn of M23_EventProcessor

  predicate Callable(s: Step) {
    match s
    case Update(event, _, _) => 1 <= event < MAX_NUM_EVENTS
    case UpdateM1553(event, _, _) => event < MAX_NUM_EVENTS
    case UpdateRecord(event, _) => 1 <= event < MAX_NUM_EVENTS
    case Tick(_, _) => true
  }

  // Whether the step puts an event into the log.
  predicate Logs(l: Log, s: Step)
    requires Callable(s)
  {
    match s
    case Update(event, recording, _) => l.enabled && l.firstRecord && !Barred(l.table[event], recording)
    case UpdateM1553(event, recording, _) => l.enabled && event >= 1 && !Barred(l.table[event], recording)
    case UpdateRecord(_, _) => l.enabled
    case Tick(_, _) => false
  }

  function Charging(l: Log, event: nat, recording: bool): (r: Log)
    requires 1 <= event < MAX_NUM_EVENTS && !Barred(l.table[event], recording)
  {
    l.(table := l.table[event := Admit(l.table[event], recording)])
  }

  function Next(l: Log, s: Step): (r: Log)
    requires WellFormed(l) && Callable(s)
    ensures WellFormed(r)
  {
    match s
    case Update(event, recording, stamp) =>
      if Logs(l, s) then Appended(Charging(l, event, recording), event, recording, stamp) else l
    case UpdateM1553(event, recording, stamp) =>
      if Logs(l, s) then Appended(Charging(l, event, recording), event, recording, stamp) else l
    case UpdateRecord(event, stamp) =>
      if Logs(l, s) then Appended(l.(firstRecord := true), event, true, stamp) else l
    case Tick(recording, _) => Ticked(l, recording)
  }

  // The range [start, end) that a turn of the drain hands to the writer.
  datatype Range = Range(from: nat, to: nat)

  // Left over from an earlier turn when the log is about to wrap.
  function Handed(l: Log): (r: Range)
    requires WellFormed(l) && l.pending > 0
    ensures r.from <= r.to < LOG_SIZE
  {
    if l.start + l.pending < 4095 then Range(l.start, l.start + if l.pending > BATCH then BATCH else l.pending)
    else if 4095 - l.start > BATCH then Range(l.start, l.start + BATCH)
    else if l.pending > BATCH then Range(l.start, 4095)
    else Range(0, 0)
  }

  function Batch(l: Log): seq<Event>
    requires WellFormed(l) && l.pending > 0
  {
    l.events[Handed(l).from..Handed(l).to]
  }

  predicate Works(l: Log, recording: bool) {
    l.pending > 0 && recording
  }

  function Ticked(l: Log, recording: bool): (r: Log)
    requires WellFormed(l)
    ensures WellFormed(r)
  {
    if !Works(l, recording) then l
    else
      var b := if l.start + l.pending < 4095 then
                 l.(end := Handed(l).to, batchLeft := if l.pending > BATCH then l.pending - BATCH else 0)
               else if 4095 - l.start > BATCH then l.(end := l.start + BATCH, batchLeft := l.pending - BATCH)
               else if l.pending > BATCH then l.(end := 0, batchLeft := 4095 - l.start)
               else l;
      b.(pending := b.batchLeft, start := b.end)
  }

  // Events a step sends to the recorder.
  function Emitted(l: Log, s: Step): seq<Event>
    requires WellFormed(l)
  {
    if s.Tick? && Works(l, s.recording) && s.delivered then Batch(l) else []
  }

  function Run(l: Log, steps: seq<Step>): (r: Log)
    requires WellFormed(l) && forall i :: 0 <= i < |steps| ==> Callable(steps[i])
    ensures WellFormed(r)
  {
    if steps == [] then l else Next(Run(l, steps[..|steps| - 1]), steps[|steps| - 1])
  }

  function SentIn(l: Log, steps: seq<Step>): seq<Event>
    requires WellFormed(l) && forall i :: 0 <= i < |steps| ==> Callable(steps[i])
  {
    if steps == [] then []
    else SentIn(l, steps[..|steps| - 1]) + Emitted(Run(l, steps[..|steps| - 1]), steps[|steps| - 1])
  }

  /* ---------- what was logged ---------- */

  // One logged event; by command when m23_UpdateRecordEvent logged it, past
  // the priority rules.
  datatype Entry = Entry(event: nat, recording: bool, command: bool, stamp: Stamp)

  function EntryOf(s: Step): Entry
    requires Callable(s) && !s.Tick? && (s.UpdateM1553? ==> s.event >= 1)
  {
    match s
    case Update(event, recording, stamp) => Entry(event, recording, false, stamp)
    case UpdateM1553(event, recording, stamp) => Entry(event, recording, false, stamp)
    case UpdateRecord(event, stamp) => Entry(event, true, true, stamp)
  }

  function History(l: Log, steps: seq<Step>): seq<Entry>
    requires WellFormed(l) && forall i :: 0 <= i < |steps| ==> Callable(steps[i])
  {
    if steps == [] then []
    else
      var rest, s := steps[..|steps| - 1], steps[|steps| - 1];
      if Logs(Run(l, rest), s) then History(l, rest) + [EntryOf(s)] else History(l, rest)
  }

  function Occurrences(history: seq<Entry>, event: nat): (n: nat)
    ensures n <= |history|
  {
    if history == [] then 0
    else Occurrences(history[..|history| - 1], event) + if history[|history| - 1].event == event then 1 else 0
  }

  // Event i of the log as its history says it must be.
  predicate Records(e: Event, history: seq<Entry>, i: nat)
    requires i < |history| && 1 <= history[i].event < MAX_NUM_EVENTS && |history| < LOG_SIZE
  {
    var h := history[i];
    e == Event(h.stamp.intraTimeLsw, h.stamp.intraTimeMsw, h.stamp.absTimeLsw, h.stamp.absTimeMsw,
               Info(h.event, Occurrences(history[..i + 1], h.event), h.recording))
  }

  ghost predicate Good(l: Log, history: seq<Entry>) {
    && WellFormed(l)
    && |history| == l.eventCount
    && (forall i :: 0 <= i < |history| ==>
          1 <= history[i].event < MAX_NUM_EVENTS && Records(l.events[i], history, i))
    && (forall e :: 0 <= e < MAX_NUM_EVENTS ==> l.table[e].count == Occurrences(history, e))
  }

  lemma AppendKeepsGood(l: Log, history: seq<Entry>, h: Entry)
    requires Good(l, history) && l.eventCount < 4095 && 1 <= h.event < MAX_NUM_EVENTS
    ensures Good(Appended(l, h.event, h.recording, h.stamp), history + [h])
  {
    hide Info, Occurrences;
    var all := history + [h];
    var r := Appended(l, h.event, h.recording, h.stamp);
    assert all[..|all|] == all;
    forall e ensures Occurrences(all, e) == Occurrences(history, e) + if e == h.event then 1 else 0 {
      OneMore(history, h, e);
    }
    forall i | 0 <= i < |all| ensures Records(r.events[i], all, i) {
      if i < |history| {
        assert all[..i + 1] == history[..i + 1];
        assert Records(l.events[i], history, i);
      }
    }
  }

  lemma {:induction false} OneMore(history: seq<Entry>, h: Entry, event: nat)
    ensures Occurrences(history + [h], event) == Occurrences(history, event) + if event == h.event then 1 else 0
  {
    assert (history + [h])[..|history|] == history;
  }

  lemma GoodIgnoresLimits(l: Log, history: seq<Entry>, m: Log)
    requires Good(l, history) && WellFormed(m) && m.events == l.events && m.eventCount == l.eventCount
    requires forall e :: 0 <= e < MAX_NUM_EVENTS ==> m.table[e].count == l.table[e].count
    ensures Good(m, history)
  {
  }

  // In every run that logs at most 4095 events the log holds exactly the
  // admitted events, in order, each with its own occurrence number.
  lemma {:induction false} RunKeepsGood(l: Log, steps: seq<Step>)
    requires Initial(l) && forall i :: 0 <= i < |steps| ==> Callable(steps[i])
    requires |History(l, steps)| < LOG_SIZE
    ensures Good(Run(l, steps), History(l, steps))
  {
    if steps != [] {
      var rest, s := steps[..|steps| - 1], steps[|steps| - 1];
      RunKeepsGood(l, rest);
      hide Good, Next, Initial;
      StepKeepsGood(Run(l, rest), History(l, rest), s);
    }
  }

  lemma StepKeepsGood(m: Log, history: seq<Entry>, s: Step)
    requires Good(m, history) && Callable(s) && (Logs(m, s) ==> |history| + 1 < LOG_SIZE)
    ensures Good(Next(m, s), if Logs(m, s) then history + [EntryOf(s)] else history)
  {
    if Logs(m, s) {
      var charged := if s.UpdateRecord? then m.(firstRecord := true) else Charging(m, s.event, s.recording);
      GoodIgnoresLimits(m, history, charged);
      AppendKeepsGood(charged, history, EntryOf(s));
    } else {
      GoodIgnoresLimits(m, history, Next(m, s));
    }
  }

  /* ---------- lookup ---------- */

  predicate Matches(e: Event, number: int, occurrence: int) {
    EventNumber(e.eventInfo) == number && Occurrence(e.eventInfo) == occurrence
  }

  // The first of count events that matches; -1 when none does.
  function Lookup(events: seq<Event>, count: nat, number: int, occurrence: int): (i: int)
    requires count <= |events|
    ensures -1 <= i < count
    ensures i >= 0 ==> Matches(events[i], number, occurrence)
    ensures forall j :: 0 <= j < count && (i < 0 || j < i) ==> !Matches(events[j], number, occurrence)
  {
    if count == 0 then -1
    else
      var i := Lookup(events, count - 1, number, occurrence);
      if i >= 0 then i else if Matches(events[count - 1], number, occurrence) then count - 1 else -1
  }

  lemma {:induction false} OccurrencesGrow(history: seq<Entry>, event: nat, i: nat, j: nat)
    requires i <= j <= |history|
    ensures Occurrences(history[..i], event) <= Occurrences(history[..j], event)
    decreases j
  {
    if i < j {
      assert history[..j][..j - 1] == history[..j - 1];
      OccurrencesGrow(history, event, i, j - 1);
    }
  }

  lemma {:induction false} NthOccurrence(history: seq<Entry>, event: nat, k: nat) returns (i: nat)
    requires 1 <= k <= Occurrences(history, event)
    ensures i < |history| && history[i].event == event && Occurrences(history[..i + 1], event) == k
  {
    var n := |history| - 1;
    if history[n].event == event && Occurrences(history, event) == k {
      i := n;
      assert history[..n + 1] == history;
    } else {
      i := NthOccurrence(history[..n], event, k);
      assert history[..n][..i + 1] == history[..i + 1];
    }
  }

  lemma MatchesItsOccurrence(l: Log, history: seq<Entry>, i: nat, number: int, occurrence: int)
    requires Good(l, history) && i < |history|
    ensures Matches(l.events[i], number, occurrence)
        <==> number == history[i].event && occurrence == Occurrences(history[..i + 1], history[i].event)
  {
    var h := history[i];
    assert Records(l.events[i], history, i);
    InfoDecodes(h.event, Occurrences(history[..i + 1], h.event), h.recording);
  }

  // Until the log wraps, asking for occurrence k of an event yields the time
  // stored when that event was logged for the k-th time, and nothing is found
  // for any other k.
  lemma {:induction false} LookupFindsOccurrence(l: Log, history: seq<Entry>, number: nat, k: int)
    requires Good(l, history)
    ensures var i := Lookup(l.events, l.eventCount, number, k);
      if 1 <= k <= Occurrences(history, number) then
        0 <= i < |history| && history[i].event == number && Occurrences(history[..i + 1], number) == k
        && l.events[i].absTimeMsw == history[i].stamp.absTimeMsw
        && l.events[i].absTimeLsw == history[i].stamp.absTimeLsw
      else i == -1
  {
    hide Info, EventNumber, Occurrence, Occurrences, Matches, Lookup;
    var i := Lookup(l.events, l.eventCount, number, k);
    if 1 <= k <= Occurrences(history, number) {
      var n := NthOccurrence(history, number, k);
      MatchesItsOccurrence(l, history, n, number, k);
    }
    if i >= 0 {
      MatchesItsOccurrence(l, history, i, number, k);
      assert Records(l.events[i], history, i);
      OccursByNow(history, i);
    }
  }

  lemma {:induction false} OccursByNow(history: seq<Entry>, i: nat)
    requires i < |history|
    ensures 1 <= Occurrences(history[..i + 1], history[i].event) <= Occurrences(history, history[i].event)
  {
    OccurrencesGrow(history, history[i].event, i + 1, |history|);
    assert history[..|history|] == history;
  }

  // Two entries of the log never carry the same event and occurrence.
  lemma OccurrencesAreUnique(l: Log, history: seq<Entry>, i: nat, j: nat)
    requires Good(l, history) && i < j < |history|
    ensures EventNumber(l.events[i].eventInfo) != EventNumber(l.events[j].eventInfo)
         || Occurrence(l.events[i].eventInfo) != Occurrence(l.events[j].eventInfo)
  {
    var e := history[i].event;
    MatchesItsOccurrence(l, history, i, e, Occurrences(history[..i + 1], e));
    MatchesItsOccurrence(l, history, j, e, Occurrences(history[..i + 1], e));
    OccurrencesGrow(history, e, i + 1, j);
    assert history[..j + 1][..j] == history[..j];
  }

  /* ---------- priorities ---------- */

  // How many entries of an event used up its limit.
  function Charges(history: seq<Entry>, event: nat, priority: nat): nat {
    if history == [] then 0
    else
      var h := history[|history| - 1];
      Charges(history[..|history| - 1], event, priority)
      + if h.event == event && !h.command && Charged(priority, h.recording) then 1 else 0
  }

  // No entry of an event that its priority keeps out of the log.
  ghost predicate Allowed(history: seq<Entry>, event: nat, priority: nat) {
    priority == 3 || priority == 5 ==>
      forall i :: 0 <= i < |history| && history[i].event == event && !history[i].command ==> history[i].recording
  }

  // An event described by d at the start, after a run with this history.
  ghost predicate Prioritised(l: Log, event: nat, d: Description, history: seq<Entry>)
    requires event < MAX_NUM_EVENTS
  {
    && l.table[event].priority == d.priority
    && l.table[event].limit + Charges(history, event, d.priority) == d.limit
    && Allowed(history, event, d.priority)
  }

  // Over every run an event's limit is used up one by one by exactly the
  // entries its priority charges, and barred entries are never logged.
  lemma {:induction false} RunKeepsPriorities(l: Log, steps: seq<Step>, event: nat)
    requires WellFormed(l) && event < MAX_NUM_EVENTS
    requires forall i :: 0 <= i < |steps| ==> Callable(steps[i])
    ensures Prioritised(Run(l, steps), event, l.table[event], History(l, steps))
  {
    hide Next, Prioritised, Logs;
    if steps == [] {
      NoHistory(l, event);
    } else {
      var rest, s := steps[..|steps| - 1], steps[|steps| - 1];
      RunKeepsPriorities(l, rest, event);
      StepKeepsPriorities(Run(l, rest), s, event, l.table[event], History(l, rest));
    }
  }

  lemma NoHistory(l: Log, event: nat)
    requires event < MAX_NUM_EVENTS
    ensures Prioritised(l, event, l.table[event], [])
  {
  }

  lemma StepKeepsPriorities(l: Log, s: Step, event: nat, d: Description, history: seq<Entry>)
    requires WellFormed(l) && Callable(s) && event < MAX_NUM_EVENTS && Prioritised(l, event, d, history)
    ensures Prioritised(Next(l, s), event, d, if Logs(l, s) then history + [EntryOf(s)] else history)
  {
    hide Appended, Charges, Allowed;
    if Logs(l, s) {
      var h := EntryOf(s);
      var charged := if s.UpdateRecord? then l.(firstRecord := true) else Charging(l, s.event, s.recording);
      AppendKeepsLimits(charged, h);
      EntryKeepsPriority(l.table[event], charged.table[event], event, d, history, h);
    }
  }

  // One more entry h in the history of an event described by prior before
  // and by later after.
  lemma {:induction false} EntryKeepsPriority(prior: Description, later: Description, event: nat, d: Description,
                           history: seq<Entry>, h: Entry)
    requires prior.priority == d.priority && prior.limit + Charges(history, event, d.priority) == d.limit
    requires Allowed(history, event, d.priority)
    requires if h.event == event && !h.command then !Barred(prior, h.recording) && later == Admit(prior, h.recording)
             else later == prior
    ensures later.priority == d.priority && later.limit + Charges(history + [h], event, d.priority) == d.limit
    ensures Allowed(history + [h], event, d.priority)
  {
    assert (history + [h])[..|history|] == history;
  }

  lemma AppendKeepsLimits(l: Log, h: Entry)
    requires WellFormed(l) && 1 <= h.event < MAX_NUM_EVENTS
    ensures forall e :: 0 <= e < MAX_NUM_EVENTS ==>
      Appended(l, h.event, h.recording, h.stamp).table[e].priority == l.table[e].priority
      && Appended(l, h.event, h.recording, h.stamp).table[e].limit == l.table[e].limit
  {
  }

  /* ---------- drain ---------- */

  ghost predicate Draining(l: Log) {
    WellFormed(l) && l.eventCount <= MAX_DRAINED && l.pending >= 0 && l.start + l.pending == l.eventCount
  }

  predicate Delivers(l: Log, s: Step)
    requires WellFormed(l)
  {
    s.Tick? && Works(l, s.recording) ==> s.delivered
  }

  ghost predicate AllDelivered(l: Log, steps: seq<Step>)
    requires WellFormed(l) && forall i :: 0 <= i < |steps| ==> Callable(steps[i])
  {
    steps == [] ||
    (AllDelivered(l, steps[..|steps| - 1]) && Delivers(Run(l, steps[..|steps| - 1]), steps[|steps| - 1]))
  }

  lemma NextKeepsDraining(l: Log, s: Step)
    requires Draining(l) && Callable(s) && (Logs(l, s) ==> l.eventCount < MAX_DRAINED)
    ensures Draining(Next(l, s))
    ensures Next(l, s).events[..l.start] == l.events[..l.start]
    ensures Next(l, s).start
         == l.start + if s.Tick? && Works(l, s.recording) then |Emitted(l, s.(delivered := true))| else 0
    ensures Next(l, s).events[..Next(l, s).start]
         == l.events[..l.start] + if s.Tick? then Emitted(l, s.(delivered := true)) else []
    ensures s.Tick? && Works(l, s.recording) ==> Next(l, s).start > l.start
    ensures Next(l, s).eventCount == l.eventCount + if Logs(l, s) then 1 else 0
  {
    hide Draining, Ticked, Emitted, Works;
    if s.Tick? {
      TurnKeepsDraining(l, s.recording);
    } else {
      LoggingKeepsDraining(l, s);
    }
  }

  lemma TurnKeepsDraining(l: Log, recording: bool)
    requires Draining(l)
    ensures Draining(Ticked(l, recording)) && Ticked(l, recording).eventCount == l.eventCount
    ensures Ticked(l, recording).events == l.events
    ensures var sent := Emitted(l, Tick(recording, true));
      && l.start <= Ticked(l, recording).start == l.start + |sent| <= l.eventCount
      && (sent != [] <==> Works(l, recording))
      && l.events[..l.start + |sent|] == l.events[..l.start] + sent
  {
  }

  lemma LoggingKeepsDraining(l: Log, s: Step)
    requires Draining(l) && Callable(s) && !s.Tick? && (Logs(l, s) ==> l.eventCount < MAX_DRAINED)
    ensures Draining(Next(l, s)) && Next(l, s).start == l.start
    ensures Next(l, s).events[..l.start] == l.events[..l.start]
    ensures Next(l, s).eventCount == l.eventCount + if Logs(l, s) then 1 else 0
  {
    hide Info, Admit, Barred;
  }

  // What a step takes from the log, delivered or not.
  function Taken(l: Log, s: Step): seq<Event>
    requires WellFormed(l)
  {
    if s.Tick? then Emitted(l, s.(delivered := true)) else []
  }

  // For every event handed out so far, whether its turn could deliver it.
  function Delivered(l: Log, steps: seq<Step>): seq<bool>
    requires WellFormed(l) && forall i :: 0 <= i < |steps| ==> Callable(steps[i])
  {
    if steps == [] then []
    else Delivered(l, steps[..|steps| - 1]) + Marks(Run(l, steps[..|steps| - 1]), steps[|steps| - 1])
  }

  function Marks(l: Log, s: Step): (m: seq<bool>)
    requires WellFormed(l)
    ensures |m| == |Taken(l, s)|
  {
    seq(|Taken(l, s)|, _ => s.Tick? && s.delivered)
  }

  // The events marked, in their order, each once.
  function Marked(events: seq<Event>, marks: seq<bool>): seq<Event>
    requires |events| == |marks|
  {
    if events == [] then []
    else
      var n := |events| - 1;
      Marked(events[..n], marks[..n]) + if marks[n] then [events[n]] else []
  }

  lemma {:induction false} MarkedAppend(events: seq<Event>, marks: seq<bool>, more: seq<Event>, mark: bool)
    requires |events| == |marks|
    ensures Marked(events + more, marks + seq(|more|, _ => mark)) == Marked(events, marks) + if mark then more else []
    decreases |more|
  {
    var all := seq(|more|, _ => mark);
    if more == [] {
      assert events + more == events && marks + all == marks;
    } else {
      var n := |more| - 1;
      MarkedAppend(events, marks, more[..n], mark);
      assert (events + more)[..|events| + n] == events + more[..n];
      assert (marks + all)[..|events| + n] == marks + seq(n, _ => mark);
      assert more == more[..n] + [more[n]];
    }
  }

  lemma {:induction false} StepKeepsMarks(l: Log, s: Step, sent: seq<Event>, marks: seq<bool>)
    requires Draining(l) && Callable(s) && (Logs(l, s) ==> l.eventCount < MAX_DRAINED)
    requires |marks| == l.start && sent == Marked(l.events[..l.start], marks)
    ensures var n := Next(l, s);
      && |marks + Marks(l, s)| == n.start
      && sent + Emitted(l, s) == Marked(n.events[..n.start], marks + Marks(l, s))
  {
    NextKeepsDraining(l, s);
    MarkedAppend(l.events[..l.start], marks, Taken(l, s), s.Tick? && s.delivered);
    hide Next, Marked, Handed, Works;
  }

  // While at most 4094 events have been logged, what was not handed out yet
  // is pending; and what was sent are the events whose turn could deliver, in
  // log order, each exactly once: all of those handed out, if and only if the
  // writer could deliver in every turn.
  lemma {:induction false} RunKeepsDraining(l: Log, steps: seq<Step>)
    requires Initial(l) && forall i :: 0 <= i < |steps| ==> Callable(steps[i])
    requires |History(l, steps)| <= MAX_DRAINED
    ensures Draining(Run(l, steps)) && Run(l, steps).eventCount == |History(l, steps)|
    ensures |Delivered(l, steps)| == Run(l, steps).start
    ensures SentIn(l, steps) == Marked(Run(l, steps).events[..Run(l, steps).start], Delivered(l, steps))
    ensures |SentIn(l, steps)| <= Run(l, steps).start
    ensures |SentIn(l, steps)| == Run(l, steps).start <==> AllDelivered(l, steps)
    ensures AllDelivered(l, steps) ==> SentIn(l, steps) == Run(l, steps).events[..Run(l, steps).start]
  {
    if steps != [] {
      var rest, s := steps[..|steps| - 1], steps[|steps| - 1];
      RunKeepsDraining(l, rest);
      NextKeepsDraining(Run(l, rest), s);
      StepKeepsMarks(Run(l, rest), s, SentIn(l, rest), Delivered(l, rest));
      hide Marked, Next;
    }
  }

  function Turns(k: nat): (steps: seq<Step>)
    ensures |steps| == k && forall i :: 0 <= i < k ==> Callable(steps[i])
  {
    seq(k, _ => Tick(true, true))
  }

  // Every turn during a recording takes 20 pending events, so n of them are
  // gone after ceil(n / 20) turns and no sooner.
  lemma {:induction false} DrainTakesCeilingOfTwentieths(l: Log, k: nat)
    requires Draining(l)
    ensures Draining(Run(l, Turns(k))) && Run(l, Turns(k)).eventCount == l.eventCount
    ensures Run(l, Turns(k)).pending == if l.pending <= BATCH * k then 0 else l.pending - BATCH * k
    ensures Run(l, Turns(k)).pending == 0 <==> (l.pending + BATCH - 1) / BATCH <= k
  {
    if k > 0 {
      DrainTakesCeilingOfTwentieths(l, k - 1);
      assert Turns(k)[..k - 1] == Turns(k - 1);
      hide Turns, Emitted, Handed, Works;
      TurnKeepsDraining(Run(l, Turns(k - 1)), true);
    }
  }

  lemma {:induction false} FirstMatchStays(events: seq<Event>, i: nat, count: nat, number: int, occurrence: int)
    requires i < count <= |events| && Lookup(events, i, number, occurrence) == -1
    requires Matches(events[i], number, occurrence)
    ensures Lookup(events, count, number, occurrence) == i
  {
    if i + 1 < count {
      FirstMatchStays(events, i, count - 1, number, occurrence);
    }
  }

  /* ---------- at the end of the ring ---------- */

  lemma {:induction false} RunSplit(l: Log, first: seq<Step>, more: seq<Step>)
    requires WellFormed(l)
    requires forall i :: 0 <= i < |first| ==> Callable(first[i])
    requires forall i :: 0 <= i < |more| ==> Callable(more[i])
    ensures forall i :: 0 <= i < |first + more| ==> Callable((first + more)[i])
    ensures Run(l, first + more) == Run(Run(l, first), more)
    decreases |more|
  {
    hide Next, Callable;
    if more == [] {
      assert first + more == first;
    } else {
      RunSplit(l, first, more[..|more| - 1]);
      assert (first + more)[..|first + more| - 1] == first + more[..|more| - 1];
    }
  }

  // n record events, one after the other.
  function Loggings(n: nat, stamp: Stamp): (steps: seq<Step>)
    ensures |steps| == n && forall i :: 0 <= i < n ==> Callable(steps[i])
  {
    seq(n, _ => UpdateRecord(1, stamp))
  }

  lemma {:induction false} LoggingsCount(l: Log, n: nat, stamp: Stamp)
    requires WellFormed(l) && l.enabled && l.eventCount + n <= 4095
    ensures var r := Run(l, Loggings(n, stamp));
      && r.enabled && r.eventCount == l.eventCount + n && r.pending == l.pending + n
      && r.start == l.start && r.end == l.end && r.batchLeft == l.batchLeft
      && forall i :: 0 <= i < LOG_SIZE && !(l.eventCount <= i < l.eventCount + n) ==> r.events[i] == l.events[i]
  {
    hide Info;
    if n > 0 {
      LoggingsCount(l, n - 1, stamp);
      assert Loggings(n, stamp)[..n - 1] == Loggings(n - 1, stamp);
    }
  }

  lemma {:induction false} TurnsKeepEnabled(l: Log, k: nat)
    requires WellFormed(l)
    ensures Run(l, Turns(k)).enabled == l.enabled
  {
    hide Handed;
    if k > 0 {
      TurnsKeepEnabled(l, k - 1);
      assert Turns(k)[..k - 1] == Turns(k - 1);
    }
  }

  // Once the last slot of the ring is used, a turn with at most 20 pending
  // events sends none of them.
  lemma LastBatchIsNotSent(l: Log, delivered: bool)
    requires WellFormed(l) && l.start + l.pending == l.eventCount == 4095 && 0 < l.pending <= BATCH
    ensures Emitted(l, Tick(true, delivered)) == []
    ensures Next(l, Tick(true, delivered)).start == l.end && Next(l, Tick(true, delivered)).pending == l.batchLeft
  {
  }

  // 4090 events, drained in 205 turns, and five more.
  function FiveToTheEnd(stamp: Stamp): (steps: seq<Step>)
    ensures forall i :: 0 <= i < |steps| ==> Callable(steps[i])
  {
    Loggings(4090, stamp) + Turns(205) + Loggings(5, stamp)
  }

  lemma {:induction false} DrainedTo4090(l: Log, stamp: Stamp)
    requires Initial(l) && l.enabled
    ensures var r := Run(Run(l, Loggings(4090, stamp)), Turns(205));
      r.enabled && r.eventCount == r.start == r.end == 4090 && r.pending == r.batchLeft == 0
  {
    LoggingsCount(l, 4090, stamp);
    var full := Run(l, Loggings(4090, stamp));
    DrainTakesCeilingOfTwentieths(full, 204);
    DrainTakesCeilingOfTwentieths(full, 205);
    TurnsKeepEnabled(full, 205);
    assert Turns(205)[..204] == Turns(204);
    hide Loggings, Turns;
  }

  // The 4095th event is one too many: the next turn, although it could
  // deliver, sends nothing, and no event is pending any more.
  lemma {:induction false} LastEventsAreDropped(l: Log, stamp: Stamp)
    requires Initial(l) && l.enabled
    ensures var r := Run(l, FiveToTheEnd(stamp));
      && r.eventCount == 4095 && r.start == 4090 && r.pending == 5
      && Emitted(r, Tick(true, true)) == []
      && Next(r, Tick(true, true)).pending == 0 && Next(r, Tick(true, true)).start == 4090
  {
    DrainedTo4090(l, stamp);
    var full := Run(l, Loggings(4090, stamp));
    var drained := Run(full, Turns(205));
    LoggingsCount(drained, 5, stamp);
    hide Loggings, Turns, Next, Run;
    RunSplit(l, Loggings(4090, stamp), Turns(205));
    RunSplit(l, Loggings(4090, stamp) + Turns(205), Loggings(5, stamp));
    LastBatchIsNotSent(Run(drained, Loggings(5, stamp)), true);
  }

  // What one turn during a recording does, near the end of the ring and away
  // from it: which slots it sends, if it can deliver, and how many events it
  // takes to be left, from which slot on.
  lemma TurnExactly(l: Log)
    requires WellFormed(l) && l.pending > 0
    ensures var n, sent := Next(l, Tick(true, true)), Emitted(l, Tick(true, true));
      && n.eventCount == l.eventCount && n.events == l.events
      && (l.start + l.pending < 4095 && l.pending <= 20 ==>
            sent == l.events[l.start..l.start + l.pending] && n.start == l.start + l.pending && n.pending == 0)
      && (l.start < 4075 && l.pending > 20 ==>
            sent == l.events[l.start..l.start + 20] && n.start == l.start + 20 && n.pending == l.pending - 20)
      && (l.start >= 4075 && l.start + l.pending >= 4095 && l.pending > 20 ==>
            l.start <= 4095 && sent == l.events[l.start..4095] && n.start == 0 && n.pending == 4095 - l.start)
      && (l.start >= 4075 && l.start + l.pending >= 4095 && l.pending <= 20 ==>
            sent == [] && n.start == l.end && n.pending == l.batchLeft)
  {
  }

  lemma {:induction false} LoggingWraps(l: Log, stamp: Stamp)
    requires WellFormed(l) && l.enabled && l.eventCount == 4095
    ensures var r := Run(l, Loggings(1, stamp));
      && r.enabled && r.eventCount == 0 && r.pending == l.pending + 1 && r.start == l.start
      && forall i :: 0 <= i < 4095 ==> r.events[i] == l.events[i]
  {
    hide Info;
    assert Loggings(1, stamp)[..0] == [];
  }

  // 4080 events, drained in 204 turns, and thirty more.
  function ThirtyAroundTheEnd(stamp: Stamp): (steps: seq<Step>)
    ensures forall i :: 0 <= i < |steps| ==> Callable(steps[i])
  {
    Loggings(4080, stamp) + Turns(204) + Loggings(15, stamp) + Loggings(1, stamp) + Loggings(14, stamp)
  }

  lemma {:induction false} DrainedTo4080(l: Log, stamp: Stamp)
    requires Initial(l) && l.enabled
    ensures var full := Run(l, Loggings(4080, stamp)); var r := Run(full, Turns(204));
      r.enabled && r.eventCount == r.start == 4080 && r.pending == 0 && r.events == full.events
  {
    LoggingsCount(l, 4080, stamp);
    var full := Run(l, Loggings(4080, stamp));
    DrainTakesCeilingOfTwentieths(full, 204);
    TurnsKeepEnabled(full, 204);
    TurnsKeepEvents(full, 204);
    hide Loggings, Turns;
  }

  lemma {:induction false} TurnsKeepEvents(l: Log, k: nat)
    requires WellFormed(l)
    ensures Run(l, Turns(k)).events == l.events
  {
    hide Handed;
    if k > 0 {
      TurnsKeepEvents(l, k - 1);
      assert Turns(k)[..k - 1] == Turns(k - 1);
    }
  }

  // Of events logged across the end of the ring the one in its last slot is
  // never sent, and an old one is sent again in its place.
  lemma {:induction false} WrapSkipsAndRepeats(l: Log, stamp: Stamp)
    requires Initial(l) && l.enabled
    ensures var r, before := Run(l, ThirtyAroundTheEnd(stamp)), Run(l, Loggings(4080, stamp));
      var next := Next(r, Tick(true, true));
      && r.eventCount == 14 && r.start == 4080 && r.pending == 30
      && Emitted(r, Tick(true, true)) == r.events[4080..4095]
      && Emitted(next, Tick(true, true)) == r.events[0..15] && r.events[14] == before.events[14]
      && Next(next, Tick(true, true)).pending == 0 && Next(next, Tick(true, true)).start == 15
  {
    DrainedTo4080(l, stamp);
    var full := Run(l, Loggings(4080, stamp));
    var drained := Run(full, Turns(204));
    LoggingsCount(drained, 15, stamp);
    var end := Run(drained, Loggings(15, stamp));
    LoggingWraps(end, stamp);
    var begun := Run(end, Loggings(1, stamp));
    LoggingsCount(begun, 14, stamp);
    hide Loggings, Turns, Next, Run, Emitted;
    RunSplit(l, Loggings(4080, stamp), Turns(204));
    RunSplit(l, Loggings(4080, stamp) + Turns(204), Loggings(15, stamp));
    RunSplit(l, Loggings(4080, stamp) + Turns(204) + Loggings(15, stamp), Loggings(1, stamp));
    RunSplit(l, Loggings(4080, stamp) + Turns(204) + Loggings(15, stamp) + Loggings(1, stamp), Loggings(14, stamp));
    var r := Run(begun, Loggings(14, stamp));
    TurnExactly(r);
    TurnExactly(Next(r, Tick(true, true)));
  }
}
