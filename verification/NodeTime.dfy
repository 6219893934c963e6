// The time stamps of the node file as instants: RecordBCD_To_GSB and
// Time_GSBToTimeTag of M2X_time.c, and the search for a time on them.
module NodeTime {
  import opened NodeFile

  // Day of the year from 1 on, and the time of day in whole seconds.
  datatype Instant = Instant(day: nat, hour: nat, minute: nat, second: nat)

  predicate InRange(i: Instant) {
    1 <= i.day < 1000 && i.hour < 24 && i.minute < 60 && i.second < 60
  }

  // The decimal digits of an instant in the two words of a stamp; fractions of
  // a second take the low byte.
  predicate Stamped(n: Node, i: Instant) {
    && n.absTimeMsw % 0x1000 == 0x100 * (i.day / 100) + 0x10 * ((i.day / 10) % 10) + i.day % 10
    && n.absTimeLsw / 0x100 == 0x10_0000 * (i.hour / 10) + 0x1_0000 * (i.hour % 10) + 0x1000 * (i.minute / 10)
                               + 0x100 * (i.minute % 10) + 0x10 * (i.second / 10) + i.second % 10
  }

  function Seconds(i: Instant): nat
    requires i.day >= 1
  {
    86400 * (i.day - 1) + 3600 * i.hour + 60 * i.minute + i.second
  }

  // Of two instants the one with the earlier day, on one day that with the
  // earlier hour, and so on.
  predicate Before(a: Instant, b: Instant) {
    a.day < b.day
    || (a.day == b.day
        && (a.hour < b.hour
            || (a.hour == b.hour
                && (a.minute < b.minute || (a.minute == b.minute && a.second < b.second)))))
  }

  lemma SecondsFollowTheOrder(a: Instant, b: Instant)
    requires InRange(a) && InRange(b)
    ensures Seconds(a) < Seconds(b) <==> Before(a, b)
    ensures Seconds(a) == Seconds(b) <==> a == b
  {
  }

  // x has the BCD digits d, least significant first, below those of rest.
  predicate HasDigits(x: nat, d: seq<nat>, rest: nat) {
    if d == [] then x == rest else d[0] < 0x10 && x % 0x10 == d[0] && HasDigits(x / 0x10, d[1..], rest)
  }

  lemma {:induction false} DigitsFound(x: nat, d: seq<nat>, rest: nat, n: nat)
    requires HasDigits(x, d, rest) && |d| <= n
    ensures BcdDigits(x, n)[..|d|] == d
    ensures BcdDigits(x, n)[|d|..] == BcdDigits(rest, n - |d|)
  {
    if d != [] {
      DigitsFound(x / 0x10, d[1..], rest, n - 1);
    }
  }

  lemma OneDigit(d: nat, y: nat, more: seq<nat>, rest: nat)
    requires d < 0x10 && HasDigits(y, more, rest)
    ensures HasDigits(d + 0x10 * y, [d] + more, rest)
  {
    hide HasDigits;
    Shifted(d, y);
    assert ([d] + more)[1..] == more;
    FromShifted(d, y, more, rest);
  }

  lemma Shifted(d: nat, y: nat)
    requires d < 0x10
    ensures (d + 0x10 * y) % 0x10 == d && (d + 0x10 * y) / 0x10 == y
  {
  }

  lemma {:induction false} FromShifted(d: nat, y: nat, more: seq<nat>, rest: nat)
    requires d < 0x10 && HasDigits(y, more, rest) && ([d] + more)[1..] == more
    requires (d + 0x10 * y) % 0x10 == d && (d + 0x10 * y) / 0x10 == y
    ensures HasDigits(d + 0x10 * y, [d] + more, rest)
  {
  }

  lemma ThreeDigits(a: nat, b: nat, c: nat, n: nat)
    requires a < 0x10 && b < 0x10 && c < 0x10
    ensures HasDigits(a + 0x10 * b + 0x100 * c + 0x1000 * n, [a, b, c], n)
  {
    assert HasDigits(n, [], n);
    hide HasDigits;
    OneDigit(c, n, [], n);
    OneDigit(b, c + 0x10 * n, [c], n);
    OneDigit(a, b + 0x10 * (c + 0x10 * n), [b, c], n);
    assert [a] + [b, c] == [a, b, c] && [b] + [c] == [b, c] && [c] + [] == [c];
  }

  // A stamped node carries the microseconds of its instant.
  lemma TimeOfStamp(n: Node, i: Instant)
    requires InRange(i) && Stamped(n, i)
    ensures TimeOf(n) == 1_000_000 * Seconds(i)
  {
    DayDigits(n, i);
    ClockDigits(n, i);
    TimeOfDigits(n, i);
  }

  lemma DayDigits(n: Node, i: Instant)
    requires InRange(i) && Stamped(n, i)
    ensures BcdDigits(n.absTimeMsw, 8)[..3] == [i.day % 10, (i.day / 10) % 10, i.day / 100]
  {
    hide HasDigits, BcdDigits;
    var a, b, c, rest := i.day % 10, (i.day / 10) % 10, i.day / 100, n.absTimeMsw / 0x1000;
    assert n.absTimeMsw == a + 0x10 * b + 0x100 * c + 0x1000 * rest;
    ThreeDigits(a, b, c, rest);
    DigitsFound(n.absTimeMsw, [a, b, c], rest, 8);
  }

  lemma ClockDigits(n: Node, i: Instant)
    requires InRange(i) && Stamped(n, i)
    ensures BcdDigits(n.absTimeLsw, 8)[2..]
         == [i.second % 10, i.second / 10, i.minute % 10, i.minute / 10, i.hour % 10, i.hour / 10]
  {
    hide HasDigits, BcdDigits;
    var a, b, c := i.second % 10, i.second / 10, i.minute % 10;
    var d, e, f := i.minute / 10, i.hour % 10, i.hour / 10;
    var low, high := n.absTimeLsw % 0x100, d + 0x10 * e + 0x100 * f;
    assert n.absTimeLsw / 0x100 == a + 0x10 * b + 0x100 * c + 0x1000 * high;
    ThreeDigits(d, e, f, 0);
    ThreeDigits(a, b, c, high);
    assert low == low % 0x10 + 0x10 * (low / 0x10);
    FieldDigits(n.absTimeLsw, low % 0x10, low / 0x10, [a, b, c], high, [d, e, f]);
  }

  // Two digits, then the groups xs and ys.
  lemma {:induction false} FieldDigits(x: nat, p: nat, q: nat, xs: seq<nat>, high: nat, ys: seq<nat>)
    requires |xs| == |ys| == 3 && p < 0x10 && q < 0x10 && x == p + 0x10 * q + 0x100 * (x / 0x100)
    requires HasDigits(x / 0x100, xs, high) && HasDigits(high, ys, 0)
    ensures BcdDigits(x, 8)[2..] == xs + ys
  {
    hide HasDigits, BcdDigits;
    OneDigit(q, x / 0x100, xs, high);
    OneDigit(p, q + 0x10 * (x / 0x100), [q] + xs, high);
    assert [p] + ([q] + xs) == [p, q] + xs;
    DigitsFound(x, [p, q] + xs, high, 8);
    DigitsFound(high, ys, 0, 3);
    var all := BcdDigits(x, 8);
    assert all[5..] == ys && all[..5] == [p, q] + xs;
    assert all[2..] == all[..5][2..] + all[5..];
  }

  lemma TwoDigits(x: nat)
    ensures 10 * (x / 10) + x % 10 == x
  {
  }

  lemma DayOfDigits(x: nat)
    ensures 100 * (x / 100) + 10 * ((x / 10) % 10) + x % 10 == x
  {
    TwoDigits(x);
    TwoDigits(x / 10);
    assert x / 10 / 10 == x / 100;
  }

  lemma TimeOfDigits(n: Node, i: Instant)
    requires InRange(i)
    requires BcdDigits(n.absTimeMsw, 8)[..3] == [i.day % 10, (i.day / 10) % 10, i.day / 100]
    requires BcdDigits(n.absTimeLsw, 8)[2..]
          == [i.second % 10, i.second / 10, i.minute % 10, i.minute / 10, i.hour % 10, i.hour / 10]
    ensures TimeOf(n) == 1_000_000 * Seconds(i)
  {
    hide BcdDigits;
    TwoDigits(i.hour);
    TwoDigits(i.minute);
    TwoDigits(i.second);
    DayOfDigits(i.day);
    var u, l := BcdDigits(n.absTimeMsw, 8), BcdDigits(n.absTimeLsw, 8);
    assert u[0] == u[..3][0] && u[1] == u[..3][1] && u[2] == u[..3][2];
    assert l[2] == l[2..][0] && l[3] == l[2..][1] && l[4] == l[2..][2];
    assert l[5] == l[2..][3] && l[6] == l[2..][4] && l[7] == l[2..][5];
  }

  // Time_GSBToTimeTag for the target: the low word is added up in 32 bits and
  // its carry is lost.
  function TimeTag(i: Instant, micros: nat): (t: nat)
    requires i.day >= 1
  {
    AddLow(1_000_000 * ((((i.day - 1) * 24 + i.hour) * 60 + i.minute) * 60 + i.second), micros)
  }

  function AddLow(x: nat, m: nat): nat {
    x / 0x1_0000_0000 * 0x1_0000_0000 + (x + m) % 0x1_0000_0000
  }

  // So the tag is the target's time exactly when there is none.
  lemma TimeTagExactly(i: Instant, micros: nat)
    requires InRange(i) && micros < 1_000_000
    ensures TimeTag(i, micros) == 1_000_000 * Seconds(i) + micros
       <==> (1_000_000 * Seconds(i)) % 0x1_0000_0000 + micros < 0x1_0000_0000
    ensures TimeTag(i, micros) == 1_000_000 * Seconds(i) + micros
         || TimeTag(i, micros) == 1_000_000 * Seconds(i) + micros - 0x1_0000_0000
  {
    hide AddLow;
    assert TimeTag(i, micros) == AddLow(1_000_000 * Seconds(i), micros);
    hide *;
    CarryLost(1_000_000 * Seconds(i), micros);
  }

  lemma CarryLost(x: nat, m: nat)
    requires m < 1_000_000
    ensures AddLow(x, m) == if x % 0x1_0000_0000 + m < 0x1_0000_0000 then x + m else x + m - 0x1_0000_0000
  {
    var q, r := x / 0x1_0000_0000, x % 0x1_0000_0000;
    assert x + m == 0x1_0000_0000 * q + (r + m);
    if r + m < 0x1_0000_0000 {
      LowWord(q, r + m);
    } else {
      LowWord(q + 1, r + m - 0x1_0000_0000);
    }
  }

  lemma LowWord(q: nat, r: nat)
    requires r < 0x1_0000_0000
    ensures (0x1_0000_0000 * q + r) % 0x1_0000_0000 == r
  {
  }

  /* ---------- the search on instants ---------- */

  // Node k was stamped at instant k, and the list is in order of time.
  ghost predicate StampedInOrder(nodes: seq<Node>, times: seq<Instant>) {
    && |times| == |nodes|
    && (forall k :: 0 <= k < |nodes| ==> InRange(times[k]) && Stamped(nodes[k], times[k]))
    && (forall j, k :: 0 <= j < k < |nodes| ==> !Before(times[k], times[j]))
  }

  // The instant lies strictly before the target.
  predicate Earlier(i: Instant, target: Instant, micros: nat) {
    Before(i, target) || (i == target && micros > 0)
  }

  lemma EarlierByTag(n: Node, i: Instant, target: Instant, micros: nat)
    requires InRange(i) && Stamped(n, i) && InRange(target) && micros < 1_000_000
    requires (1_000_000 * Seconds(target)) % 0x1_0000_0000 + micros < 0x1_0000_0000
    ensures TimeOf(n) < TimeTag(target, micros) <==> Earlier(i, target, micros)
  {
    hide Stamped, TimeOf, TimeTag, Seconds, Before;
    TimeOfStamp(n, i);
    TimeTagExactly(target, micros);
    SecondsFollowTheOrder(i, target);
  }

  // The search for a target plays from the block of the last node stamped
  // strictly before it, from that of the first node when none is, and finds
  // nothing when all are.
  lemma SearchFindsInstant(nodes: seq<Node>, times: seq<Instant>, target: Instant, micros: nat)
    requires StampedInOrder(nodes, times) && nodes != [] && InRange(target) && micros < 1_000_000
    requires (1_000_000 * Seconds(target)) % 0x1_0000_0000 + micros < 0x1_0000_0000
    ensures var block := SearchBlock(nodes, TimeTag(target, micros));
      && (Earlier(times[|times| - 1], target, micros) ==> block == 0)
      && (!Earlier(times[0], target, micros) ==> block == nodes[0].block)
      && forall k, next :: 0 <= k < next < |nodes| && next == k + 1 ==>
           Earlier(times[k], target, micros) && !Earlier(times[next], target, micros) ==> block == nodes[k].block
  {
    var t := TimeTag(target, micros);
    hide InRange, Stamped, TimeOf, TimeTag, Seconds, Earlier, Before, SearchBlock;
    forall k | 0 <= k < |nodes| ensures TimeOf(nodes[k]) < t <==> Earlier(times[k], target, micros) {
      EarlierByTag(nodes[k], times[k], target, micros);
    }
    StampedIsSorted(nodes, times);
    SearchFindsLastEarlierNode(nodes, t);
  }

  lemma StampedIsSorted(nodes: seq<Node>, times: seq<Instant>)
    requires StampedInOrder(nodes, times)
    ensures TimeSorted(nodes)
  {
    hide InRange, Stamped, TimeOf, Seconds, Before;
    forall j, k | 0 <= j < k < |nodes| ensures TimeOf(nodes[j]) <= TimeOf(nodes[k]) {
      TimeOfStamp(nodes[j], times[j]);
      TimeOfStamp(nodes[k], times[k]);
      SecondsFollowTheOrder(times[k], times[j]);
    }
  }

  // One microsecond before 01:11:35 on day 1 the carry is lost, and the search
  // plays from the first node instead of the second.
  lemma LostCarryFindsAnotherNode(nodes: seq<Node>, times: seq<Instant>)
    requires StampedInOrder(nodes, times)
    requires times == [Instant(1, 1, 0, 0), Instant(1, 1, 11, 30), Instant(1, 1, 20, 0)]
    ensures SearchBlock(nodes, TimeTag(Instant(1, 1, 11, 34), 999_999)) == nodes[0].block
    ensures SearchBlock(nodes, 1_000_000 * Seconds(Instant(1, 1, 11, 34)) + 999_999) == nodes[1].block
  {
    hide Stamped, TimeOf, SearchBlock;
    TimeOfStamp(nodes[0], times[0]);
    TimeOfStamp(nodes[1], times[1]);
    TimeOfStamp(nodes[2], times[2]);
    StampedIsSorted(nodes, times);
    SearchFindsLastEarlierNode(nodes, TimeTag(Instant(1, 1, 11, 34), 999_999));
    SearchFindsLastEarlierNode(nodes, 1_000_000 * Seconds(Instant(1, 1, 11, 34)) + 999_999);
  }
}
