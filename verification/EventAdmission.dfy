// Which calls put an event into the log, told from the calls and from what
// TMATS says about the event: the rules of m23_UpdateEvent,
// m23_Update_M1553_Event and m23_UpdateRecordEvent over whole runs.
module EventAdmission {
  import opened Bytes
  import opened Bits
  import opened EventLog

  // A record command came before call i.
  ghost predicate RecordedBefore(steps: seq<Step>, i: nat)
    requires i <= |steps|
  {
    exists j :: 0 <= j < i && steps[j].UpdateRecord?
  }

  // Call i asks for an entry: events are enabled, an internal event comes
  // after a record command, and a bus event has a number.
  ghost predicate Asks(l: Log, steps: seq<Step>, i: nat)
    requires i < |steps|
  {
    && l.enabled
    && match steps[i]
       case Update(_, _, _) => l.firstRecord || RecordedBefore(steps, i)
       case UpdateM1553(event, _, _) => event >= 1
       case _ => false
  }

  // The calls that a limit counts.
  datatype Where = Anywhere | InRecording | OutsideRecording

  predicate Counts(w: Where, recording: bool) {
    w.Anywhere? || (w.InRecording? <==> recording)
  }

  // How many of the first i calls asked for an entry of this event there.
  ghost function Asked(l: Log, steps: seq<Step>, i: nat, event: nat, w: Where): nat
    requires i <= |steps|
  {
    if i == 0 then 0
    else
      Asked(l, steps, i - 1, event, w)
      + if Asks(l, steps, i - 1) && steps[i - 1].event == event && Counts(w, steps[i - 1].recording) then 1 else 0
  }

  // Call i belongs into the log.
  ghost predicate Due(l: Log, steps: seq<Step>, i: nat)
    requires i < |steps| && Callable(steps[i])
  {
    if steps[i].UpdateRecord? then l.enabled
    else
      && Asks(l, steps, i)
      && var event, recording := steps[i].event, steps[i].recording;
         var d := l.table[event];
         match d.priority
         case 2 => recording || Asked(l, steps, i, event, OutsideRecording) < d.limit
         case 3 => recording
         case 4 => Asked(l, steps, i, event, Anywhere) < d.limit
         case 5 => recording && Asked(l, steps, i, event, InRecording) < d.limit
         case _ => true
  }

  /* ---------- what the table holds after a run ---------- */

  // Which calls use up the limit of an event.
  function Limited(priority: nat): Where {
    match priority
    case 2 => OutsideRecording
    case 5 => InRecording
    case _ => Anywhere
  }

  function Left(limit: nat, asked: nat): nat {
    if asked < limit then limit - asked else 0
  }

  ghost function LimitAfter(l: Log, steps: seq<Step>, i: nat, event: nat): nat
    requires i <= |steps| && event < MAX_NUM_EVENTS
  {
    var d := l.table[event];
    if d.priority == 2 || d.priority == 4 || d.priority == 5
    then Left(d.limit, Asked(l, steps, i, event, Limited(d.priority))) else d.limit
  }

  ghost predicate Describes(l: Log, m: Log, steps: seq<Step>, i: nat, event: nat)
    requires i <= |steps| && event < MAX_NUM_EVENTS
  {
    && m.enabled == l.enabled
    && (m.firstRecord <==> l.firstRecord || (l.enabled && RecordedBefore(steps, i)))
    && m.table[event].priority == l.table[event].priority
    && m.table[event].limit == LimitAfter(l, steps, i, event)
  }

  ghost predicate AllCallable(steps: seq<Step>) {
    forall i :: 0 <= i < |steps| ==> Callable(steps[i])
  }

  lemma {:induction false} RunDescribes(l: Log, steps: seq<Step>, i: nat, event: nat)
    requires WellFormed(l) && AllCallable(steps) && i <= |steps| && event < MAX_NUM_EVENTS
    ensures Describes(l, Run(l, steps[..i]), steps, i, event)
  {
    if i > 0 {
      hide Describes, Next, WellFormed;
      RunDescribes(l, steps, i - 1, event);
      OneCall(l, steps, i - 1);
      StepDescribes(l, Run(l, steps[..i - 1]), steps, i - 1, event);
    } else {
      hide Run;
      assert steps[..0] == [];
      NoCall(l, steps, event);
    }
  }

  lemma {:induction false} NoCall(l: Log, steps: seq<Step>, event: nat)
    requires WellFormed(l) && AllCallable(steps) && event < MAX_NUM_EVENTS
    ensures Run(l, []) == l && Describes(l, l, steps, 0, event)
  {
  }

  lemma {:induction false} OneCall(l: Log, steps: seq<Step>, i: nat)
    requires WellFormed(l) && AllCallable(steps) && i < |steps|
    ensures Run(l, steps[..i + 1]) == Next(Run(l, steps[..i]), steps[i])
  {
    hide Next;
    assert steps[..i + 1][..i] == steps[..i] && steps[..i + 1][i] == steps[i];
  }

  // What one call finds and leaves.
  lemma StepDescribes(l: Log, m: Log, steps: seq<Step>, i: nat, event: nat)
    requires WellFormed(m) && i < |steps| && Callable(steps[i]) && event < MAX_NUM_EVENTS
    requires Describes(l, m, steps, i, event)
    ensures Describes(l, Next(m, steps[i]), steps, i + 1, event)
    ensures !steps[i].Tick? && steps[i].event == event ==> (Logs(m, steps[i]) <==> Due(l, steps, i))
  {
    RecordedByNow(steps, i);
    NextTable(m, steps[i], event);
    hide Next, RecordedBefore;
  }

  lemma RecordedByNow(steps: seq<Step>, i: nat)
    requires i < |steps|
    ensures RecordedBefore(steps, i + 1) <==> RecordedBefore(steps, i) || steps[i].UpdateRecord?
  {
    if steps[i].UpdateRecord? {
      assert steps[i].UpdateRecord?;
    }
  }

  lemma NextTable(m: Log, s: Step, event: nat)
    requires WellFormed(m) && Callable(s) && event < MAX_NUM_EVENTS
    ensures Next(m, s).enabled == m.enabled
    ensures Next(m, s).firstRecord <==> m.firstRecord || (s.UpdateRecord? && m.enabled)
    ensures Next(m, s).table[event].priority == m.table[event].priority
    ensures Next(m, s).table[event].limit
         == if (s.Update? || s.UpdateM1553?) && s.event == event && Logs(m, s)
            then Admit(m.table[event], s.recording).limit else m.table[event].limit
  {
    hide Info;
  }

  // The calls that are due, as entries.
  ghost function DueEntries(l: Log, steps: seq<Step>, i: nat): seq<Entry>
    requires AllCallable(steps) && i <= |steps|
  {
    if i == 0 then []
    else DueEntries(l, steps, i - 1) + if Due(l, steps, i - 1) then [EntryOf(steps[i - 1])] else []
  }

  // Over every run a call puts its event into the log exactly when it is due.
  lemma {:induction false} LogsWhatIsDue(l: Log, steps: seq<Step>, i: nat)
    requires WellFormed(l) && AllCallable(steps) && i < |steps|
    ensures Logs(Run(l, steps[..i]), steps[i]) <==> Due(l, steps, i)
  {
    if !steps[i].Tick? && (steps[i].UpdateM1553? ==> steps[i].event >= 1) {
      RunDescribes(l, steps, i, steps[i].event);
      hide Describes, Run;
      StepDescribes(l, Run(l, steps[..i]), steps, i, steps[i].event);
    }
  }

  lemma {:induction false} HistoryIsDue(l: Log, steps: seq<Step>, i: nat)
    requires WellFormed(l) && AllCallable(steps) && i <= |steps|
    ensures History(l, steps[..i]) == DueEntries(l, steps, i)
  {
    if i > 0 {
      HistoryIsDue(l, steps, i - 1);
      hide Logs, Due, Run, EntryOf;
      LogsWhatIsDue(l, steps, i - 1);
      assert steps[..i][..i - 1] == steps[..i - 1] && steps[..i][i - 1] == steps[i - 1];
    }
  }

  // Event i of the log tells which entry it is, the how manieth of its kind,
  // and carries its stamp.
  predicate Tells(e: Event, h: Entry, occurrence: nat) {
    && EventNumber(e.eventInfo) == h.event && Occurrence(e.eventInfo) == occurrence % 0x1_0000
    && Stamp(e.intraTimeLsw, e.intraTimeMsw, e.absTimeLsw, e.absTimeMsw) == h.stamp
    && (occurrence < 0x1_0000 ==> (Flag(e.eventInfo) <==> h.recording))
  }

  // So while at most 4095 calls are due, the log is the list of these.
  lemma {:induction false} LogIsWhatIsDue(l: Log, steps: seq<Step>)
    requires Initial(l) && AllCallable(steps) && |DueEntries(l, steps, |steps|)| < LOG_SIZE
    ensures var m, due := Run(l, steps), DueEntries(l, steps, |steps|);
      && m.eventCount == |due|
      && forall i :: 0 <= i < |due| ==> Tells(m.events[i], due[i], Occurrences(due[..i + 1], due[i].event))
  {
    var due := DueEntries(l, steps, |steps|);
    assert steps[..|steps|] == steps;
    HistoryIsDue(l, steps, |steps|);
    RunKeepsGood(l, steps);
    hide DueEntries, Run, History;
    forall i | 0 <= i < |due| ensures Tells(Run(l, steps).events[i], due[i], Occurrences(due[..i + 1], due[i].event)) {
      assert Records(Run(l, steps).events[i], due, i);
      hide Good;
      InfoTells(due[i].event, Occurrences(due[..i + 1], due[i].event), due[i].recording);
    }
  }

  /* ---------- the recording flag ---------- */

  predicate Flag(info: U32) {
    (info / 0x1000_0000) % 2 == 1
  }

  lemma InfoTells(event: nat, count: U32, recording: bool)
    requires 1 <= event <= MAX_NUM_EVENTS
    ensures EventNumber(Info(event, count, recording)) == event
    ensures Occurrence(Info(event, count, recording)) == count % 0x1_0000
    ensures count < 0x1_0000 ==> (Flag(Info(event, count, recording)) <==> recording)
  {
    hide Info, EventNumber, Occurrence, Flag;
    InfoDecodes(event, count, recording);
    FlagExactly(event, count, recording);
  }

  // Bit 28 is the recording flag unless the count has run into it.
  lemma FlagExactly(event: nat, count: U32, recording: bool)
    requires 1 <= event <= MAX_NUM_EVENTS
    ensures Flag(Info(event, count, recording)) <==> recording || (count / 0x1_0000) % 2 == 1
  {
    var shifted, flag := (count * 0x1000) % 0x1_0000_0000, if recording then 0x1000_0000 else 0;
    var low := Or(event - 1, shifted);
    hide Or, Low, Power2;
    NumberAndCount(event - 1, count);
    BitsAbove(event - 1, count);
    OrShifted(low, flag, 28);
    SplitOff28(low);
    SplitOff28(flag);
    SplitOff28(Or(low, flag));
    LowestBit(low / 0x1000_0000, flag / 0x1000_0000);
  }

  lemma BitsAbove(number: nat, count: U32)
    requires number < 0x1000
    ensures ((number + (count * 0x1000) % 0x1_0000_0000) / 0x1000_0000) % 2 == (count / 0x1_0000) % 2
  {
    var low, high, out := count % 0x1_0000, (count / 0x1_0000) % 0x10, count / 0x1_0000 / 0x10;
    CountParts(count);
    TopBit(count, high);
    BitsOfParts(number, low, high, out);
  }

  lemma CountParts(count: nat)
    ensures count == count % 0x1_0000 + 0x1_0000 * ((count / 0x1_0000) % 0x10) + 0x10_0000 * (count / 0x1_0000 / 0x10)
  {
    var q := count / 0x1_0000;
    assert q == q % 0x10 + 0x10 * (q / 0x10);
  }

  lemma BitsOfParts(number: nat, low: nat, high: nat, out: nat)
    requires number < 0x1000 && low < 0x1_0000 && high < 0x10
    ensures ((number + ((low + 0x1_0000 * high + 0x10_0000 * out) * 0x1000) % 0x1_0000_0000) / 0x1000_0000) % 2
         == high % 2
  {
    ShiftedCount(low, high, out);
    QuotientOf28(number + 0x1000 * low, high);
  }

  lemma ShiftedCount(low: nat, high: nat, out: nat)
    requires low < 0x1_0000 && high < 0x10
    ensures ((low + 0x1_0000 * high + 0x10_0000 * out) * 0x1000) % 0x1_0000_0000 == 0x1000 * low + 0x1000_0000 * high
  {
  }

  lemma TopBit(count: nat, high: nat)
    requires high == (count / 0x1_0000) % 0x10
    ensures high % 2 == (count / 0x1_0000) % 2
  {
  }

  // Or of shifted numbers.
  lemma {:induction false} OrShifted(a: nat, b: nat, n: nat)
    ensures High(Or(a, b), n) == Or(High(a, n), High(b, n))
  {
    if n > 0 {
      if a == 0 || b == 0 {
        HighOfZero(n);
      } else {
        OrHalves(a, b);
        OrShifted(a / 2, b / 2, n - 1);
      }
    }
  }

  lemma {:induction false} HighOfZero(n: nat)
    ensures High(0, n) == 0
  {
    if n > 0 {
      HighOfZero(n - 1);
    }
  }

  lemma {:induction false} SplitOff28(x: nat)
    ensures High(x, 28) == x / 0x1000_0000
  {
    hide Low, High, Power2;
    SmallPowers();
    LowAndHigh(x, 28);
    QuotientOf28(Low(x, 28), High(x, 28));
  }

  lemma QuotientOf28(low: nat, high: nat)
    requires low < 0x1000_0000
    ensures (low + 0x1000_0000 * high) / 0x1000_0000 == high
  {
  }

  lemma {:induction false} LowestBit(a: nat, b: nat)
    ensures Or(a, b) % 2 == 1 <==> a % 2 == 1 || b % 2 == 1
  {
    if a != 0 && b != 0 {
      OrHalves(a, b);
    }
  }
}
