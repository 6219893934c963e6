// The figures that the words of the three F-15 messages carry, and what a
// round of messages that carry given figures does.
module F15Words {
  import opened Bytes
  import opened F15Time

  // A T20 names an hour and a day of the year, in decimal digits.
  predicate CarriesDay(words: ShortMessage, hour: nat, day: nat) {
    && hour < 24 && day < 1000
    && words[9] / 0x100 == 0x10 * (hour / 10) + hour % 10
    && words[10] % 0x100 == 0x10 * (day / 100) + (day / 10) % 10
    && words[11] / 0x1000 == day % 10
  }

  lemma DayAndHour(words: ShortMessage, hour: nat, day: nat)
    requires CarriesDay(words, hour, day)
    ensures Hours(words) == hour && Days(words) == day
  {
    Digits(words[9] / 0x100, hour / 10, hour % 10);
    Digits(words[10] % 0x100, day / 100, (day / 10) % 10);
    Quarters(words[9]);
    Halves(words[10]);
    assert day == 100 * (day / 100) + 10 * ((day / 10) % 10) + day % 10;
  }

  lemma Digits(x: nat, high: nat, low: nat)
    requires x == 0x10 * high + low && low < 0x10 && high < 0x10
    ensures x / 0x10 == high && x % 0x10 == low
  {
  }

  lemma Quarters(w: U16)
    ensures w / 0x1000 == w / 0x100 / 0x10 && (w / 0x100) % 0x10 == w / 0x100 % 0x10
  {
  }

  lemma Halves(w: U16)
    ensures (w % 0x100) % 0x10 == w % 0x10 && (w % 0x100) / 0x10 == (w / 0x10) % 0x10
  {
  }

  // Valid: no error bit is set, and the figure of merit is 1 to 7.
  predicate Sound(words: ShortMessage, merit: nat) {
    words[4] % 0x200 == 0 && words[12] / 0x1000 == merit
  }

  lemma SoundIsValid(words: ShortMessage, merit: nat)
    requires Sound(words, merit)
    ensures Valid(words) <==> 1 <= merit <= 7
  {
  }

  // An R0 carries a signed count of 100 ns ticks, low word first, and a tag.
  predicate CarriesTicks(message: ShortMessage, ticks: int, tag: U16) {
    && -0x8000_0000_0000_0000 <= ticks < 0x8000_0000_0000_0000 && message[8] == tag
    && FromLittleWords(message[..4]) == ticks % 0x1_0000_0000_0000_0000
  }

  function FromLittleWords(words: seq<U16>): nat {
    if words == [] then 0 else words[0] + 0x1_0000 * FromLittleWords(words[1..])
  }

  lemma {:induction false} FourWords(a: U16, b: U16, c: U16, d: U16)
    ensures FromLittleWords([a, b, c, d]) == a + 0x1_0000 * (b + 0x1_0000 * (c + 0x1_0000 * d))
  {
    assert [a, b, c, d][1..] == [b, c, d] && [b, c, d][1..] == [c, d] && [c, d][1..] == [d] && [d][1..] == [];
    assert FromLittleWords([d]) == d;
    assert FromLittleWords([c, d]) == c + 0x1_0000 * d;
    assert FromLittleWords([b, c, d]) == b + 0x1_0000 * (c + 0x1_0000 * d);
  }

  lemma Ticks(message: ShortMessage, ticks: int, tag: U16)
    requires CarriesTicks(message, ticks, tag)
    ensures RelativeTime(message) == ticks
  {
    var a: int, b: int, c: int, d: int := message[0], message[1], message[2], message[3];
    assert message[..4] == [message[0], message[1], message[2], message[3]];
    FourWords(message[0], message[1], message[2], message[3]);
    var all := a + 0x1_0000 * b + 0x1_0000_0000 * c + 0x1_0000_0000_0000 * d;
    assert 0 <= all < 0x1_0000_0000_0000_0000;
    Unsigned(ticks);
  }

  lemma Unsigned(ticks: int)
    requires -0x8000_0000_0000_0000 <= ticks < 0x8000_0000_0000_0000
    ensures ticks % 0x1_0000_0000_0000_0000 == if ticks < 0 then ticks + 0x1_0000_0000_0000_0000 else ticks
  {
  }

  // A T9 carries a second of the day and 2^-14 parts of it, in two words of
  // which the high one comes first, and a tag.
  predicate CarriesTime(long: LongMessage, second: nat, part: nat, tag: U16) {
    var high: int, low: int := long[29], long[30];
    second < 86400 && part < 0x4000 && long[11] == tag && 0x1_0000 * high + low == 0x4000 * second + part
  }

  lemma TimeCarried(long: LongMessage, second: nat, part: nat, tag: U16)
    requires CarriesTime(long, second, part, tag)
    ensures TimeOfDay(long) == 0x4000 * second + part
    ensures NextSecond(TimeOfDay(long)) == second + 1
    ensures TicksToNextSecond(TimeOfDay(long)) == (0x4000 - part) * 10_000_000 / 0x4000
  {
    assert (0x4000 * second + part) / 0x4000 == second && (0x4000 * second + part) % 0x4000 == part;
  }

  // The time of day of a second, where second 86400 is 24:00:00.
  predicate Reads(c: Clock, second: nat) {
    c.minutes < 60 && c.seconds < 60 && 3600 * c.hour + 60 * c.minutes + c.seconds == second
  }

  // One round of messages with these figures jams the time exactly when the
  // hour of the last message is that of the second behind the T9, and the tags
  // are accepted; then to that second, on the last message's day, with the
  // ticks of the R0 moved by the tags' difference and the rest of the second.
  lemma RoundOfFigures(first: ShortMessage, r0: ShortMessage, t9: LongMessage, last: ShortMessage,
                       merit: nat, ticks: int, tag1: U16, second: nat, part: nat, tag2: U16, hour: nat, day: nat)
    requires Sound(first, merit) && Sound(last, merit) && 1 <= merit <= 7
    requires CarriesTicks(r0, ticks, tag1) && CarriesTime(t9, second, part, tag2) && CarriesDay(last, hour, day)
    ensures var m := Run([T20(first)] + [R0(r0, true)] + [T9(t9)] + [T20(last)]);
      && (m.timeJammed <==> hour == (second + 1) / 3600 && SyncAccepted(tag1, tag2))
      && (m.timeJammed ==>
            && Reads(m.clock, second + 1) && m.day == day
            && m.refTime == ticks + 500 * Sync(tag1, tag2) + (0x4000 - part) * 10_000_000 / 0x4000)
  {
    SoundIsValid(first, merit);
    SoundIsValid(last, merit);
    Ticks(r0, ticks, tag1);
    TimeCarried(t9, second, part, tag2);
    DayAndHour(last, hour, day);
    ClockEncodesNextSecond(TimeOfDay(t9));
    assert ClockOf(TimeOfDay(t9)).hour == (second + 1) / 3600;
    hide Valid, Hours, Days, RelativeTime, TimeOfDay, NextSecond, TicksToNextSecond, ClockOf, Run, Next, SyncAccepted;
    FourSteps(T20(first), R0(r0, true), T9(t9), T20(last));
    FourTransitions(first, r0, t9, last);
  }

  lemma {:induction false} FourSteps(a: Event, b: Event, c: Event, d: Event)
    ensures var m := Run([a] + [b] + [c]);
      && m == Next(Next(Next(START, a), b), c) && (m.state == 3 ==> m.st1 < 0x1_0000 && m.st2 < 0x1_0000)
      && Run([a] + [b] + [c] + [d]) == Next(m, d)
  {
    hide Next;
    OneStep([], a);
    OneStep([a], b);
    OneStep([a] + [b], c);
    OneStep([a] + [b] + [c], d);
    assert [] + [a] == [a];
  }

  lemma {:induction false} OneStep(events: seq<Event>, e: Event)
    ensures Run(events + [e]) == Next(Run(events), e)
  {
    hide Next;
    assert (events + [e])[..|events|] == events;
  }

  lemma FourTransitions(first: ShortMessage, r0: ShortMessage, t9: LongMessage, last: ShortMessage)
    requires Valid(first) && Valid(last)
    ensures var m := Next(Next(Next(START, T20(first)), R0(r0, true)), T9(t9));
      && m == START.(state := 3, rt1 := RelativeTime(r0), st1 := r0[8], st2 := t9[11], tod1 := TimeOfDay(t9))
      && (var n := Next(m, T20(last));
          && (n.timeJammed <==> ClockOf(TimeOfDay(t9)).hour == Hours(last) && SyncAccepted(r0[8], t9[11]))
          && (n.timeJammed ==>
                && n.clock == ClockOf(TimeOfDay(t9)) && n.day == Days(last)
                && n.refTime == RelativeTime(r0) + 500 * Sync(r0[8], t9[11]) + TicksToNextSecond(TimeOfDay(t9))))
  {
    hide Valid, Hours, Days, RelativeTime, TimeOfDay, NextSecond, TicksToNextSecond, ClockOf;
  }
}
