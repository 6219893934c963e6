// Setting the recorder's time from an F-15 1553 bus (M23_M1553_cmd.c): a
// valid T20 arms R0, R0 and T9 bring the synchronisation tag and the time of
// day, and the next T20 jams the time.
module F15Time {
  import opened Bytes

  const ROLLOVER := 0xB1E0
  const MAX_SYNC := 20000

  /* ---------- messages ---------- */

  // The words left in the capture FIFO.
  type ShortMessage = s: seq<U16> | |s| == 17 witness seq(17, _ => 0)
  type LongMessage = s: seq<U16> | |s| == 33 witness seq(33, _ => 0)

  // An R0 can fail: its capture may never complete.
  datatype Event = T20(words: ShortMessage) | R0(message: ShortMessage, captured: bool) | T9(long: LongMessage) | Other

  function Nibble(w: U16, shift: nat): nat {
    match shift
    case 0 => w % 0x10
    case 4 => (w / 0x10) % 0x10
    case 8 => (w / 0x100) % 0x10
    case _ => w / 0x1000
  }

  // Block status clear, and a valid figure from 1 to 7.
  predicate Valid(words: ShortMessage) {
    words[4] % 0x200 == 0 && 0 < Nibble(words[12], 12) < 8
  }

  function Hours(words: ShortMessage): nat {
    Nibble(words[9], 8) + 10 * Nibble(words[9], 12)
  }

  function Days(words: ShortMessage): nat {
    Nibble(words[11], 12) + 10 * Nibble(words[10], 0) + 100 * Nibble(words[10], 4)
  }

  // Relative time of the message, in units of 100 nanoseconds; the last word
  // carries the sign.
  function RelativeTime(words: seq<U16>): int
    requires |words| >= 4
  {
    var a: int, b: int, c: int, d: int := words[0], words[1], words[2], words[3];
    a + 0x1_0000 * b + 0x1_0000_0000 * c + 0x1_0000_0000_0000 * (if d < 0x8000 then d else d - 0x1_0000)
  }

  function TimeOfDay(long: LongMessage): U32 {
    var low: int, high: int := long[30], long[29];
    low + 0x1_0000 * high
  }

  /* ---------- one attempt ---------- */

  datatype Clock = Clock(hour: nat, minutes: nat, seconds: nat)

  // The whole second after the time of day, whose fraction has 14 bits.
  function NextSecond(tod: U32): nat {
    tod / 0x4000 + 1
  }

  function ClockOf(tod: U32): Clock {
    Clock(NextSecond(tod) / 3600, (NextSecond(tod) % 3600) / 60, NextSecond(tod) % 60)
  }

  // The two tags after the rollover correction: one of them may get a
  // seventeenth bit.
  function Corrected(st1: U16, st2: U16): (t: (U32, U32))
    ensures t.0 <= 0x1_FFFF && t.1 <= 0x1_FFFF
  {
    if st2 > ROLLOVER && st1 <= ROLLOVER then (st1 + 0x1_0000, st2)
    else if st2 <= ROLLOVER && st1 > ROLLOVER then (st1, st2 + 0x1_0000)
    else (st1, st2)
  }

  function Sync(st1: U16, st2: U16): int {
    Corrected(st1, st2).1 - Corrected(st1, st2).0
  }

  predicate SyncAccepted(st1: U16, st2: U16) {
    -MAX_SYNC <= Sync(st1, st2) <= MAX_SYNC
  }

  function TicksToNextSecond(tod: U32): nat {
    ((0x4000 - tod % 0x4000) * 10_000_000) / 0x4000
  }

  function RefTime(rt1: int, sync: int, tod: U32): int {
    rt1 + sync * 500 + TicksToNextSecond(tod)
  }

  // What the second T20 does with the values collected.
  predicate Accepted(words: ShortMessage, st1: U16, st2: U16, tod: U32) {
    Valid(words) && ClockOf(tod).hour == Hours(words) && SyncAccepted(st1, st2)
  }

  /* ---------- what an attempt means ---------- */

  // The clock encodes the whole second following the time of day.
  lemma ClockEncodesNextSecond(tod: U32)
    ensures var c := ClockOf(tod);
      3600 * c.hour + 60 * c.minutes + c.seconds == NextSecond(tod) && c.minutes < 60 && c.seconds < 60
    ensures 0x4000 * NextSecond(tod) == tod + (0x4000 - tod % 0x4000)
  {
    SplitSeconds(NextSecond(tod));
  }

  lemma SplitSeconds(n: nat)
    ensures 3600 * (n / 3600) + 60 * ((n % 3600) / 60) + n % 60 == n
  {
    var h, rest := n / 3600, n % 3600;
    assert n == 60 * (60 * h) + rest;
    assert n % 60 == rest % 60;
  }

  // The reference time is at most one 100 ns tick before the exact relative
  // time of that second, which is (0x4000 - fraction) / 0x4000 seconds after
  // the synchronised time of day.
  lemma RefTimeIsWithinOneTick(rt1: int, sync: int, tod: U32)
    ensures var elapsed := RefTime(rt1, sync, tod) - (rt1 + 500 * sync);
      0x4000 * elapsed <= (0x4000 * NextSecond(tod) - tod) * 10_000_000 < 0x4000 * (elapsed + 1)
  {
    ClockEncodesNextSecond(tod);
    var x := (0x4000 - tod % 0x4000) * 10_000_000;
    assert x == 0x4000 * (x / 0x4000) + x % 0x4000;
  }

  // r stands for the difference of the tags on the 16-bit tag counter.
  predicate Represents(r: int, st1: U16, st2: U16) {
    -20000 <= r <= 20000 && (r - (st2 - st1)) % 0x1_0000 == 0
  }

  function Distance(st1: U16, st2: U16): nat {
    if st2 >= st1 then st2 - st1 else st1 - st2
  }

  predicate Straddles(st1: U16, st2: U16) {
    (st1 <= 0xB1E0) != (st2 <= 0xB1E0)
  }

  lemma RepresentativeIsUnique(r: int, s: int, st1: U16, st2: U16)
    requires Represents(r, st1, st2) && Represents(s, st1, st2)
    ensures r == s
  {
    var m, n := (r - (st2 - st1)) / 0x1_0000, (s - (st2 - st1)) / 0x1_0000;
    assert r - s == 0x1_0000 * (m - n);
  }

  // An accepted difference is the one representative within 20000 tags.
  lemma AcceptedSyncRepresents(st1: U16, st2: U16)
    requires SyncAccepted(st1, st2)
    ensures Represents(Sync(st1, st2), st1, st2)
  {
  }

  // A difference that has a representative is accepted, unless the tags lie
  // closely on different sides of the magic number 0xB1E0, or are exactly
  // that number apart on the same side.
  lemma SyncAcceptedExactly(st1: U16, st2: U16)
    ensures SyncAccepted(st1, st2)
        <==> (exists r :: Represents(r, st1, st2))
             && !(Straddles(st1, st2) && Distance(st1, st2) <= 20000)
             && !(!Straddles(st1, st2) && Distance(st1, st2) == 0x1_0000 - 20000)
  {
    if SyncAccepted(st1, st2) {
      AcceptedSyncRepresents(st1, st2);
    }
    if r :| Represents(r, st1, st2) {
      var m := (r - (st2 - st1)) / 0x1_0000;
      assert r - (st2 - st1) == 0x1_0000 * m;
      assert -1 <= m <= 1;
    }
  }

  // Two tags one apart can be refused.
  lemma NeighboursRefused()
    ensures !SyncAccepted(0xB1E0, 0xB1E1) && Represents(1, 0xB1E0, 0xB1E1)
  {
  }

  /* ---------- the state machine ---------- */

  datatype Machine = Machine(state: nat, rt1: int, st1: U32, st2: U32, tod1: U32, refTime: int,
                             timeJammed: bool, day: nat, clock: Clock, jams: nat)

  const START := Machine(0, 0, 0, 0, 0, 0, false, 0, Clock(0, 0, 0), 0)

  function Jammed(m: Machine, words: ShortMessage): Machine
    requires m.st1 < 0x1_0000 && m.st2 < 0x1_0000
  {
    var t := Corrected(m.st1, m.st2);
    var n := m.(st1 := t.0, st2 := t.1, refTime := RefTime(m.rt1, t.1 - t.0, m.tod1));
    if m.timeJammed then n else n.(timeJammed := true, day := Days(words), clock := ClockOf(m.tod1), jams := m.jams + 1)
  }

  // M23_M1553_ProcessF15_Time.
  function Next(m: Machine, e: Event): Machine
    requires m.state == 3 ==> m.st1 < 0x1_0000 && m.st2 < 0x1_0000
  {
    match m.state
    case 0 => if e.T20? && Valid(e.words) then m.(state := 1) else m
    case 1 =>
      if e.R0? && e.captured then m.(state := 2, rt1 := RelativeTime(e.message), st1 := e.message[8]) else m
    case 2 => if e.T9? then m.(state := 3, st2 := e.long[11], tod1 := TimeOfDay(e.long)) else m
    case 3 =>
      if !e.T20? then m
      else if !Valid(e.words) then m.(state := 4)
      else if ClockOf(m.tod1).hour != Hours(e.words) then m.(state := 1)
      else if !SyncAccepted(m.st1, m.st2) then
        m.(state := 1, st1 := Corrected(m.st1, m.st2).0, st2 := Corrected(m.st1, m.st2).1)
      else Jammed(m, e.words).(state := 4)
    case _ => m
  }

  /* ---------- what must have come before ---------- */

  ghost predicate HadT20(events: seq<Event>) {
    exists i :: 0 <= i < |events| && events[i].T20? && Valid(events[i].words)
  }

  ghost predicate HadR0(events: seq<Event>, rt1: int, st1: nat) {
    exists j :: 0 <= j < |events| && HadT20(events[..j]) && IsR0(events[j], rt1, st1)
  }

  predicate IsR0(e: Event, rt1: int, st1: nat) {
    e.R0? && e.captured && rt1 == RelativeTime(e.message) && st1 == e.message[8]
  }

  ghost predicate HadT9(events: seq<Event>, rt1: int, st1: nat, st2: nat, tod: nat) {
    exists k :: 0 <= k < |events| && HadR0(events[..k], rt1, st1) && IsT9(events[k], st2, tod)
  }

  predicate IsT9(e: Event, st2: nat, tod: nat) {
    e.T9? && st2 == e.long[11] && tod == TimeOfDay(e.long)
  }

  // What the state says about the events so far, in order.
  ghost predicate Follows(m: Machine, events: seq<Event>) {
    && m.state <= 4
    && (m.state == 1 ==> HadT20(events))
    && (m.state == 2 ==> HadR0(events, m.rt1, m.st1) && m.st1 < 0x1_0000)
    && (m.state == 3 ==> HadT9(events, m.rt1, m.st1, m.st2, m.tod1) && m.st1 < 0x1_0000 && m.st2 < 0x1_0000)
    && (m.state <= 3 ==> !m.timeJammed)
    && m.jams == (if m.timeJammed then 1 else 0)
  }

  // A jam: a T20 that is accepted with the tags of an R0 and a T9 that came,
  // in this order, after a valid T20.
  ghost predicate Justified(m: Machine, events: seq<Event>) {
    m.timeJammed ==> exists n :: 0 <= n < |events| && JamsAt(m, events, n)
  }

  ghost predicate JamsAt(m: Machine, events: seq<Event>, n: nat)
    requires n < |events|
  {
    events[n].T20? && exists st1: U16, st2: U16 ::
      HadT9(events[..n], m.rt1, st1, st2, m.tod1)
      && Accepted(events[n].words, st1, st2, m.tod1)
      && m.refTime == RefTime(m.rt1, Sync(st1, st2), m.tod1) && m.clock == ClockOf(m.tod1)
      && m.day == Days(events[n].words)
  }

  function Run(events: seq<Event>): (m: Machine)
    ensures m.state == 3 ==> m.st1 < 0x1_0000 && m.st2 < 0x1_0000
    ensures m.state == 2 ==> m.st1 < 0x1_0000
  {
    if events == [] then START else Next(Run(events[..|events| - 1]), events[|events| - 1])
  }

  lemma HadT20Stays(events: seq<Event>, e: Event)
    requires HadT20(events)
    ensures HadT20(events + [e])
  {
    var i :| 0 <= i < |events| && events[i].T20? && Valid(events[i].words);
    assert (events + [e])[i] == events[i];
  }

  lemma HadR0Stays(events: seq<Event>, e: Event, rt1: int, st1: nat)
    requires HadR0(events, rt1, st1)
    ensures HadR0(events + [e], rt1, st1) && HadT20(events + [e])
  {
    var j :| 0 <= j < |events| && HadT20(events[..j]) && IsR0(events[j], rt1, st1);
    assert (events + [e])[j] == events[j] && (events + [e])[..j] == events[..j];
    var i :| 0 <= i < j && events[..j][i].T20? && Valid(events[..j][i].words);
    assert (events + [e])[i] == events[..j][i];
  }

  lemma HadT9Stays(events: seq<Event>, e: Event, rt1: int, st1: nat, st2: nat, tod: nat)
    requires HadT9(events, rt1, st1, st2, tod)
    ensures HadT9(events + [e], rt1, st1, st2, tod) && HadT20(events + [e])
  {
    var k :| 0 <= k < |events| && HadR0(events[..k], rt1, st1) && IsT9(events[k], st2, tod);
    assert (events + [e])[k] == events[k] && (events + [e])[..k] == events[..k];
    HadR0Stays(events[..k], events[k], rt1, st1);
    var i :| 0 <= i < k + 1 && (events[..k] + [events[k]])[i].T20? && Valid((events[..k] + [events[k]])[i].words);
    assert (events + [e])[i] == (events[..k] + [events[k]])[i];
  }

  lemma StepFollows(m: Machine, events: seq<Event>, e: Event)
    requires Follows(m, events)
    ensures Follows(Next(m, e), events + [e])
  {
    hide HadT20, HadR0, HadT9, Valid, RelativeTime, TimeOfDay, Corrected, RefTime;
    var all := events + [e];
    match m.state
    case 0 => if e.T20? && Valid(e.words) { FirstT20(events, e); }
    case 1 =>
      HadT20Stays(events, e);
      if e.R0? && e.captured { FirstR0(events, e); }
    case 2 =>
      HadR0Stays(events, e, m.rt1, m.st1);
      if e.T9? { FirstT9(events, e, m.rt1, m.st1); }
    case 3 => HadT9Stays(events, e, m.rt1, m.st1, m.st2, m.tod1);
    case _ =>
  }

  lemma FirstT20(events: seq<Event>, e: Event)
    requires e.T20? && Valid(e.words)
    ensures HadT20(events + [e])
  {
    assert (events + [e])[|events|] == e;
  }

  lemma FirstR0(events: seq<Event>, e: Event)
    requires e.R0? && e.captured && HadT20(events)
    ensures HadR0(events + [e], RelativeTime(e.message), e.message[8])
  {
    assert (events + [e])[|events|] == e && (events + [e])[..|events|] == events;
  }

  lemma FirstT9(events: seq<Event>, e: Event, rt1: int, st1: nat)
    requires e.T9? && HadR0(events, rt1, st1)
    ensures HadT9(events + [e], rt1, st1, e.long[11], TimeOfDay(e.long))
  {
    assert (events + [e])[|events|] == e && (events + [e])[..|events|] == events;
  }

  lemma JamStays(m: Machine, events: seq<Event>, e: Event)
    requires Justified(m, events)
    ensures Justified(m, events + [e])
  {
    if m.timeJammed {
      var n :| 0 <= n < |events| && JamsAt(m, events, n);
      assert (events + [e])[n] == events[n] && (events + [e])[..n] == events[..n];
      assert JamsAt(m, events + [e], n);
    }
  }

  lemma StepJustified(m: Machine, events: seq<Event>, e: Event)
    requires Follows(m, events) && Justified(m, events)
    ensures Justified(Next(m, e), events + [e])
  {
    var all, n := events + [e], Next(m, e);
    assert all[|events|] == e && all[..|events|] == events;
    if m.timeJammed {
      assert n == m;
      JamStays(m, events, e);
    } else if n.timeJammed {
      hide HadT9, Valid, RefTime;
      var st1: U16, st2: U16 := m.st1, m.st2;
      assert HadT9(all[..|events|], n.rt1, st1, st2, n.tod1);
      assert JamsAt(n, all, |events|);
    }
  }

  // Over every event sequence time is jammed at most once, and only by a
  // valid T20 behind a valid T20, an R0 and a T9, with the clock and the
  // reference time those messages stand for.
  lemma {:induction false} JamsAtMostOnce(events: seq<Event>)
    ensures Follows(Run(events), events) && Justified(Run(events), events)
    ensures Run(events).jams <= 1
  {
    if events != [] {
      var rest, e := events[..|events| - 1], events[|events| - 1];
      JamsAtMostOnce(rest);
      assert rest + [e] == events;
      StepFollows(Run(rest), rest, e);
      StepJustified(Run(rest), rest, e);
    }
  }

  // When the second T20 comes, time is jammed exactly when it is accepted; a
  // mismatching hour or difference starts over with R0; and an invalid T20
  // ends the machine without any time.
  lemma SecondT20Decides(m: Machine, words: ShortMessage)
    requires m.state == 3 && !m.timeJammed && m.st1 < 0x1_0000 && m.st2 < 0x1_0000
    ensures var n := Next(m, T20(words));
      && (n.timeJammed <==> Accepted(words, m.st1, m.st2, m.tod1))
      && (n.state == 1 <==> Valid(words) && !Accepted(words, m.st1, m.st2, m.tod1))
      && (n.state == 4 <==> n.timeJammed || !Valid(words))
  {
  }

  lemma {:induction false} NothingLeavesTheEnd(events: seq<Event>, more: seq<Event>)
    requires Run(events).state == 4
    ensures Run(events + more) == Run(events)
  {
    if more == [] {
      assert events + more == events;
    } else {
      NothingLeavesTheEnd(events, more[..|more| - 1]);
      var all := events + more;
      assert all[..|all| - 1] == events + more[..|more| - 1];
    }
  }

  /* ---------- which sequences jam the time ---------- */

  // What the machine waits for in states 0 to 3.
  datatype Wanted = ValidT20 | CapturedR0 | AnyT9 | AnyT20

  predicate Meets(e: Event, w: Wanted) {
    match w
    case ValidT20 => e.T20? && Valid(e.words)
    case CapturedR0 => e.R0? && e.captured
    case AnyT9 => e.T9?
    case AnyT20 => e.T20?
  }

  // The first event wanted, from event i on.
  function FirstFrom(events: seq<Event>, w: Wanted, i: nat): (n: nat)
    requires i <= |events|
    ensures i <= n <= |events| && (n < |events| ==> Meets(events[n], w))
    decreases |events| - i
  {
    if i == |events| || Meets(events[i], w) then i else FirstFrom(events, w, i + 1)
  }

  lemma {:induction false} NoneBefore(events: seq<Event>, w: Wanted, i: nat, j: nat)
    requires i <= |events| && i <= j < FirstFrom(events, w, i)
    ensures j < |events| && !Meets(events[j], w)
    decreases |events| - i
  {
    hide Meets;
    if i < j {
      NoneBefore(events, w, i + 1, j);
    }
  }

  // Undecided; given up at an invalid T20; or jammed by the R0, T9 and T20 at
  // these places.
  datatype Outcome = Undecided | GivenUp | Jams(r0: nat, t9: nat, t20: nat)

  // A round from event i on: the first R0 captured, the first T9 behind it and
  // the first T20 behind that; when they do not agree, the next round.
  function Rounds(events: seq<Event>, i: nat): (o: Outcome)
    requires i <= |events|
    ensures o.Jams? ==> i <= o.r0 < o.t9 < o.t20 < |events|
                        && events[o.r0].R0? && events[o.t9].T9? && events[o.t20].T20?
    decreases |events| - i
  {
    var j := FirstFrom(events, CapturedR0, i);
    if j == |events| then Undecided
    else
      var k := FirstFrom(events, AnyT9, j + 1);
      if k == |events| then Undecided
      else
        var n := FirstFrom(events, AnyT20, k + 1);
        if n == |events| then Undecided
        else if !Valid(events[n].words) then GivenUp
        else if Accepted(events[n].words, events[j].message[8], events[k].long[11], TimeOfDay(events[k].long))
        then Jams(j, k, n)
        else Rounds(events, n + 1)
  }

  // The rounds begin behind the first valid T20.
  function Decided(events: seq<Event>): Outcome {
    var i := FirstFrom(events, ValidT20, 0);
    if i == |events| then Undecided else Rounds(events, i + 1)
  }

  // Events a to b change nothing.
  ghost predicate StaysThrough(m: Machine, events: seq<Event>, a: nat, b: nat)
    requires m.state == 3 ==> m.st1 < 0x1_0000 && m.st2 < 0x1_0000
  {
    forall i :: a <= i < b && i < |events| ==> Next(m, events[i]) == m
  }

  lemma {:induction false} Skipped(events: seq<Event>, m: Machine, a: nat, b: nat)
    requires a <= b <= |events| && Run(events[..a]) == m && StaysThrough(m, events, a, b)
    ensures Run(events[..b]) == m
    decreases b
  {
    hide Next;
    if a < b {
      Skipped(events, m, a, b - 1);
      assert events[..b][..b - 1] == events[..b - 1] && events[..b][b - 1] == events[b - 1];
    }
  }

  lemma {:induction false} Taken(events: seq<Event>, n: nat)
    requires n < |events|
    ensures Run(events[..n + 1]) == Next(Run(events[..n]), events[n])
  {
    assert events[..n + 1][..n] == events[..n];
    hide Next;
  }

  // Waiting in a state for its event.
  predicate Waits(m: Machine, w: Wanted) {
    m.state == match w case ValidT20 => 0 case CapturedR0 => 1 case AnyT9 => 2 case AnyT20 => 3
  }

  lemma Unwanted(m: Machine, e: Event, w: Wanted)
    requires Waits(m, w) && !Meets(e, w) && (m.state == 3 ==> m.st1 < 0x1_0000 && m.st2 < 0x1_0000)
    ensures Next(m, e) == m
  {
    hide Valid, RelativeTime, TimeOfDay, Corrected, RefTime, SyncAccepted, ClockOf;
  }

  lemma {:induction false} Unchanged(events: seq<Event>, w: Wanted, a: nat, m: Machine)
    requires a <= |events| && Waits(m, w) && (m.state == 3 ==> m.st1 < 0x1_0000 && m.st2 < 0x1_0000)
    ensures StaysThrough(m, events, a, FirstFrom(events, w, a))
  {
    hide Next, FirstFrom, Meets, Waits;
    forall i | a <= i < FirstFrom(events, w, a) ensures Next(m, events[i]) == m {
      NoneBefore(events, w, a, i);
      Unwanted(m, events[i], w);
    }
  }

  lemma {:induction false} WaitsFor(events: seq<Event>, w: Wanted, a: nat)
    requires a <= |events| && Waits(Run(events[..a]), w)
    ensures var n := FirstFrom(events, w, a);
      && Run(events[..n]) == Run(events[..a])
      && (n < |events| ==> Run(events[..n + 1]) == Next(Run(events[..a]), events[n]))
  {
    hide *;
    var n, m := FirstFrom(events, w, a), Run(events[..a]);
    Unchanged(events, w, a, m);
    Skipped(events, m, a, n);
    if n < |events| {
      Taken(events, n);
    }
  }

  // A machine in state 4 stays as it is.
  lemma {:induction false} EndReached(events: seq<Event>, n: nat)
    requires n <= |events| && Run(events[..n]).state == 4
    ensures Run(events) == Run(events[..n])
  {
    Skipped(events, Run(events[..n]), n, |events|);
    assert events[..|events|] == events;
  }

  // What the machine holds after the messages at these places jammed it.
  ghost predicate HoldsTimeOf(m: Machine, events: seq<Event>, o: Outcome)
    requires o.Jams? && o.r0 < |events| && o.t9 < |events| && o.t20 < |events|
    requires events[o.r0].R0? && events[o.t9].T9? && events[o.t20].T20?
  {
    var st1, st2, tod := events[o.r0].message[8], events[o.t9].long[11], TimeOfDay(events[o.t9].long);
    && m.refTime == RefTime(RelativeTime(events[o.r0].message), Sync(st1, st2), tod)
    && m.clock == ClockOf(tod) && m.day == Days(events[o.t20].words)
  }

  ghost predicate AsDecided(m: Machine, events: seq<Event>, o: Outcome)
    requires o.Jams? ==> o.r0 < |events| && o.t9 < |events| && o.t20 < |events|
                         && events[o.r0].R0? && events[o.t9].T9? && events[o.t20].T20?
  {
    && (m.timeJammed <==> o.Jams?) && (m.state == 4 <==> !o.Undecided?) && m.jams == (if o.Jams? then 1 else 0)
    && (o.Jams? ==> HoldsTimeOf(m, events, o))
  }

  predicate Unjammed(m: Machine) {
    !m.timeJammed && m.jams == 0
  }

  // The end of a round: the machine in state 3 meets a T20.
  lemma RoundEnds(m: Machine, words: ShortMessage, rt1: int, st1: U16, st2: U16, tod: U32)
    requires m.state == 3 && Unjammed(m) && m.rt1 == rt1 && m.st1 == st1 && m.st2 == st2 && m.tod1 == tod
    ensures var n := Next(m, T20(words));
      && (!Valid(words) ==> n.state == 4 && Unjammed(n))
      && (Valid(words) && !Accepted(words, st1, st2, tod) ==> n.state == 1 && Unjammed(n))
      && (Accepted(words, st1, st2, tod) ==>
            n.state == 4 && n.timeJammed && n.jams == 1 && n.refTime == RefTime(rt1, Sync(st1, st2), tod)
            && n.clock == ClockOf(tod) && n.day == Days(words))
  {
    hide Valid, RefTime;
  }

  lemma FirstSteps(m: Machine, e: Event)
    requires Unjammed(m)
    ensures m.state == 1 && Meets(e, CapturedR0) ==>
      Next(m, e) == m.(state := 2, rt1 := RelativeTime(e.message), st1 := e.message[8])
    ensures m.state == 2 && Meets(e, AnyT9) ==>
      Next(m, e) == m.(state := 3, st2 := e.long[11], tod1 := TimeOfDay(e.long))
  {
    hide RelativeTime, TimeOfDay;
  }

  // No round is completed.
  lemma OpenRound(events: seq<Event>, i: nat, j: nat, k: nat)
    requires i <= |events| && j == FirstFrom(events, CapturedR0, i)
    requires j == |events|
          || (k == FirstFrom(events, AnyT9, j + 1)
              && (k == |events| || FirstFrom(events, AnyT20, k + 1) == |events|))
    ensures Rounds(events, i) == Undecided
  {
    hide FirstFrom, Meets, Valid, Accepted, TimeOfDay;
  }

  lemma {:induction false} ClosedRound(events: seq<Event>, i: nat, j: nat, k: nat, n: nat)
    requires i <= j < k < n < |events| && j == FirstFrom(events, CapturedR0, i)
    requires k == FirstFrom(events, AnyT9, j + 1) && n == FirstFrom(events, AnyT20, k + 1)
    ensures events[j].R0? && events[k].T9? && events[n].T20?
    ensures Rounds(events, i)
         == if !Valid(events[n].words) then GivenUp
            else if Accepted(events[n].words, events[j].message[8], events[k].long[11], TimeOfDay(events[k].long))
            then Jams(j, k, n) else Rounds(events, n + 1)
  {
    hide Valid, Accepted, TimeOfDay, FirstFrom;
  }

  lemma {:induction false} RoundsDecide(events: seq<Event>, i: nat)
    requires i <= |events| && Run(events[..i]).state == 1 && Unjammed(Run(events[..i]))
    ensures AsDecided(Run(events), events, Rounds(events, i))
    decreases |events| - i, 1
  {
    hide Run, Valid, RelativeTime, TimeOfDay, RefTime, Accepted, SyncAccepted, FirstFrom, HoldsTimeOf, Rounds, Next;
    assert events[..|events|] == events;
    var j := FirstFrom(events, CapturedR0, i);
    WaitsFor(events, CapturedR0, i);
    if j == |events| {
      OpenRound(events, i, j, j);
    } else {
      FirstSteps(Run(events[..i]), events[j]);
      var k := FirstFrom(events, AnyT9, j + 1);
      WaitsFor(events, AnyT9, j + 1);
      if k == |events| {
        OpenRound(events, i, j, k);
      } else {
        FirstSteps(Run(events[..j + 1]), events[k]);
        RoundDecides(events, i, j, k);
      }
    }
  }

  lemma {:induction false} RoundDecides(events: seq<Event>, i: nat, j: nat, k: nat)
    requires i <= j < k < |events| && j == FirstFrom(events, CapturedR0, i) && k == FirstFrom(events, AnyT9, j + 1)
    requires var m := Run(events[..k + 1]);
      && m.state == 3 && Unjammed(m) && m.rt1 == RelativeTime(events[j].message) && m.st1 == events[j].message[8]
      && m.st2 == events[k].long[11] && m.tod1 == TimeOfDay(events[k].long)
    ensures AsDecided(Run(events), events, Rounds(events, i))
    decreases |events| - i, 0
  {
    hide Run, Valid, RelativeTime, TimeOfDay, RefTime, Accepted, SyncAccepted, FirstFrom, Rounds, Next, ClockOf, Sync;
    assert events[..|events|] == events;
    var m, n := Run(events[..k + 1]), FirstFrom(events, AnyT20, k + 1);
    WaitsFor(events, AnyT20, k + 1);
    if n == |events| {
      OpenRound(events, i, j, k);
    } else {
      ClosedRound(events, i, j, k, n);
      RoundEnds(m, events[n].words, m.rt1, events[j].message[8], events[k].long[11], m.tod1);
      if Run(events[..n + 1]).state == 4 {
        EndReached(events, n + 1);
      } else {
        RoundsDecide(events, n + 1);
      }
    }
  }

  // Exactly these sequences jam the time, with the day, the clock and the
  // reference time of the round that agrees; and exactly those that meet an
  // invalid T20 at the end of a round before end the machine without a time.
  lemma {:induction false} JamsExactly(events: seq<Event>)
    ensures var o := Decided(events); AsDecided(Run(events), events, o)
  {
    var i := FirstFrom(events, ValidT20, 0);
    assert events[..0] == [] && events[..|events|] == events;
    WaitsFor(events, ValidT20, 0);
    if i < |events| {
      hide Valid, RelativeTime, TimeOfDay, Corrected, RefTime, Accepted, SyncAccepted, FirstFrom;
      RoundsDecide(events, i + 1);
    }
  }

  /* ---------- the machine as the source keeps it ---------- */

  class TimeSync {
    var state: nat
    var rt1: int
    var st1: U32
    var st2: U32
    var tod1: U32
    var refTime: int
    var timeJammed: bool
    var day: nat
    var clock: Clock
    ghost var jams: nat

    constructor ()
      ensures State() == START
    {
      state, rt1, st1, st2, tod1, refTime, timeJammed, day := 0, 0, 0, 0, 0, 0, false, 0;
      clock, jams := Clock(0, 0, 0), 0;
    }

    ghost function State(): Machine
      reads this
    {
      Machine(state, rt1, st1, st2, tod1, refTime, timeJammed, day, clock, jams)
    }

    method ProcessF15Time(e: Event)
      requires state == 3 ==> st1 < 0x1_0000 && st2 < 0x1_0000
      modifies this
      ensures State() == Next(old(State()), e)
    {
      if state == 0 {
        if e.T20? {
          var status := F15Time(e.words);
          if status == 1 {
            state := 1;
          }
        }
      } else if state == 1 {
        if e.R0? && e.captured {
          rt1 := RelativeTime(e.message);
          st1 := e.message[8];
          state := 2;
        }
      } else if state == 2 {
        if e.T9? {
          st2 := e.long[11];
          tod1 := TimeOfDay(e.long);
          state := 3;
        }
      } else if state == 3 {
        if e.T20? {
          var status := F15Time(e.words);
          if status == -3 {
            state := 1;
          } else {
            state := 4;
          }
        }
      }
    }

    // M23_M1553_F15_Time
    method F15Time(words: ShortMessage) returns (status: int)
      requires state == 0 || (state == 3 && st1 < 0x1_0000 && st2 < 0x1_0000)
      modifies this
      ensures state == old(state)
      ensures state == 0 ==> State() == old(State()) && status == if Valid(words) then 1 else 0
      ensures state == 3 && status == -3 ==> State().(state := 1) == Next(old(State()), T20(words))
      ensures state == 3 && status != -3 ==> State().(state := 4) == Next(old(State()), T20(words))
    {
      hide Valid, Hours, Days, ClockOf, RefTime;
      var accepted := CheckWords(words);
      if !accepted {
        return 0;
      }
      if state == 0 {
        return 1;
      }
      var next := ComputeClock();
      if next.hour != Hours(words) {
        return -3;
      }
      if st2 > ROLLOVER && st1 <= ROLLOVER {
        st1 := st1 + 0x1_0000;
      } else if st2 <= ROLLOVER && st1 > ROLLOVER {
        st2 := st2 + 0x1_0000;
      }
      var sync := st2 - st1;
      if sync > MAX_SYNC || sync < -MAX_SYNC {
        return -3;
      }
      refTime := ComputeRefTime(sync);
      if !timeJammed {
        day := ComputeDay(words);
        clock := next;
        timeJammed := true;
        jams := jams + 1;
      }
      return 0;
    }

    // The error bits and the validity field of a T20.
    method CheckWords(words: ShortMessage) returns (accepted: bool)
      ensures accepted <==> Valid(words)
    {
      if words[4] % 0x200 != 0 {
        return false;
      }
      var valid := words[12] / 0x1000;
      return valid > 0 && valid < 8;
    }

    method ComputeClock() returns (c: Clock)
      ensures c == ClockOf(tod1)
    {
      var next := tod1 / 0x4000 + 1;
      var hour, minutes, seconds := next / 3600, (next % 3600) / 60, next % 60;
      return Clock(hour, minutes, seconds);
    }

    method ComputeRefTime(sync: int) returns (r: int)
      ensures r == RefTime(rt1, sync, tod1)
    {
      r := rt1 + sync * 500 + ((0x4000 - tod1 % 0x4000) * 10_000_000) / 0x4000;
    }

    method ComputeDay(words: ShortMessage) returns (d: nat)
      ensures d == Days(words)
    {
      d := words[11] / 0x1000 + 10 * (words[10] % 0x10) + 100 * ((words[10] / 0x10) % 0x10);
    }
  }
}
