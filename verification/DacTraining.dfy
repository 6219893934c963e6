// Training of the time-code DAC (M23_Utilities.c): two bisections for the ends
// of the window in which the mark clock locks, and a value in its middle.
module DacTraining {

  const LOWEST := 0x1fff
  const HIGHEST := 0x3fff
  const PROBES := 26
  const READS := 100
  // Probes after which a bisection of 8192 values has ended.
  const ENOUGH := 14

  // The state of one training search.
  datatype Search = Search(low: int, high: int, value: int, save: int)

  function Begin(start: int): Search {
    Search(LOWEST, HIGHEST, start, 0)
  }

  // What a completed probe does: mark is the count the hardware returns.
  function Probed(s: Search, start: int, mark: nat): Search {
    if mark > 0xF then s.(low := s.value, value := s.value + (s.high - s.value) / 2)
    else if mark < 0x1 then s.(high := s.value, value := s.value - (s.value - s.low) / 2)
    else if start == HIGHEST then s.(save := s.value, low := s.value, value := s.value + (s.high - s.value) / 2)
    else s.(save := s.value, high := s.value, value := s.value - (s.value - s.low) / 2)
  }

  function After(start: int, response: int -> nat, n: nat): Search {
    if n == 0 then Begin(start)
    else
      var s := After(start, response, n - 1);
      Probed(s, start, response(s.value))
  }

  // The response locks exactly in a..b: below it counts too high, above it
  // does not count.  The window may be empty (a == b + 1).
  ghost predicate Locks(response: int -> nat, a: int, b: int) {
    0x1fff < a <= b + 1 && b < 0x3fff
    && forall v :: 0x1fff <= v <= 0x3fff ==>
      (response(v) > 0xF <==> v < a) && (response(v) < 0x1 <==> v > b)
  }

  // Distance of low and high after n halvings.
  function Gap(n: nat): (g: nat)
    ensures g >= 1
  {
    if n == 0 then 8192 else if Gap(n - 1) == 1 then 1 else Gap(n - 1) / 2
  }

  // The searched end stays between low and high, whose distance halves with
  // every probe behind the first.
  ghost predicate Halving(s: Search, n: nat) {
    && s.high - s.low == Gap(n)
    && LOWEST <= s.low && s.high <= HIGHEST
    && (if Gap(n) > 1 then Gap(n) % 2 == 0 && s.value == s.low + Gap(n) / 2 else s.value == s.low || s.value == s.high)
  }

  lemma {:induction false} GapsByHand(n: nat)
    ensures n <= 13 ==> Gap(n) == [8192, 4096, 2048, 1024, 512, 256, 128, 64, 32, 16, 8, 4, 2, 1][n]
    ensures n >= 13 ==> Gap(n) == 1
  {
    if n > 0 {
      GapsByHand(n - 1);
    }
  }

  lemma GapIsEven(n: nat)
    ensures Gap(n) > 1 ==> Gap(n) % 2 == 0 && Gap(n + 1) == Gap(n) / 2
    ensures Gap(n) == 1 ==> Gap(n + 1) == 1
  {
    GapsByHand(n);
    GapsByHand(n + 1);
  }

  lemma ProbeHalves(s: Search, start: int, mark: nat, n: nat)
    requires Halving(s, n) && (s.value == s.low ==> mark >= 0x1) && (s.value == s.high ==> mark <= 0xF)
    requires start == HIGHEST ==> s.value == s.high ==> mark < 0x1
    requires start != HIGHEST ==> s.value == s.low ==> mark > 0xF
    ensures Halving(Probed(s, start, mark), n + 1)
  {
    GapIsEven(n);
    GapIsEven(n + 1);
    hide Gap;
  }

  lemma FirstProbe(response: int -> nat, a: int, b: int)
    requires Locks(response, a, b)
    ensures After(HIGHEST, response, 1) == Search(LOWEST, HIGHEST, LOWEST + 4096, 0)
    ensures After(LOWEST, response, 1) == Search(LOWEST, HIGHEST, LOWEST + 4096, 0)
  {
    assert After(HIGHEST, response, 0) == Begin(HIGHEST);
    assert After(LOWEST, response, 0) == Begin(LOWEST);
  }

  lemma {:induction false} NextProbeOf(start: int, response: int -> nat, n: nat)
    requires n >= 1
    ensures After(start, response, n) == var s := After(start, response, n - 1); Probed(s, start, response(s.value))
  {
  }

  // What the search from above knows.
  ghost predicate HighFound(s: Search, a: int, b: int) {
    s.low <= b < s.high && s.save == if s.low >= a then s.low else 0
  }

  lemma HighProbe(s: Search, response: int -> nat, a: int, b: int, n: nat)
    requires Locks(response, a, b) && Halving(s, n) && HighFound(s, a, b)
    ensures var t := Probed(s, HIGHEST, response(s.value)); Halving(t, n + 1) && HighFound(t, a, b)
  {
    ValueInside(s, n);
    var mark := response(s.value);
    hide Gap;
    ProbeHalves(s, HIGHEST, mark, n);
    hide Halving;
  }

  lemma ValueInside(s: Search, n: nat)
    requires Halving(s, n)
    ensures LOWEST <= s.low <= s.value <= s.high <= HIGHEST
  {
    hide Gap;
  }

  lemma HighStart(response: int -> nat, a: int, b: int)
    requires Locks(response, a, b)
    ensures Halving(After(HIGHEST, response, 1), 0) && HighFound(After(HIGHEST, response, 1), a, b)
  {
    FirstProbe(response, a, b);
    hide After;
  }

  lemma {:induction false} HighSearch(response: int -> nat, a: int, b: int, n: nat)
    requires Locks(response, a, b) && n >= 1
    ensures Halving(After(HIGHEST, response, n), n - 1) && HighFound(After(HIGHEST, response, n), a, b)
  {
    hide After, Locks, Halving, HighFound, Probed;
    if n == 1 {
      HighStart(response, a, b);
    } else {
      HighSearch(response, a, b, n - 1);
      NextProbeOf(HIGHEST, response, n);
      HighProbe(After(HIGHEST, response, n - 1), response, a, b, n - 2);
    }
  }

  // What the search from below knows.
  ghost predicate LowFound(s: Search, a: int, b: int) {
    s.low < a <= s.high && s.save == if s.high <= b then s.high else 0
  }

  lemma LowProbe(s: Search, response: int -> nat, a: int, b: int, n: nat)
    requires Locks(response, a, b) && Halving(s, n) && LowFound(s, a, b)
    ensures var t := Probed(s, LOWEST, response(s.value)); Halving(t, n + 1) && LowFound(t, a, b)
  {
    ValueInside(s, n);
    var mark := response(s.value);
    hide Gap;
    ProbeHalves(s, LOWEST, mark, n);
    hide Halving;
  }

  lemma LowStart(response: int -> nat, a: int, b: int)
    requires Locks(response, a, b)
    ensures Halving(After(LOWEST, response, 1), 0) && LowFound(After(LOWEST, response, 1), a, b)
  {
    FirstProbe(response, a, b);
    hide After;
  }

  lemma {:induction false} LowSearch(response: int -> nat, a: int, b: int, n: nat)
    requires Locks(response, a, b) && n >= 1
    ensures Halving(After(LOWEST, response, n), n - 1) && LowFound(After(LOWEST, response, n), a, b)
  {
    hide After, Locks, Halving, LowFound, Probed;
    if n == 1 {
      LowStart(response, a, b);
    } else {
      LowSearch(response, a, b, n - 1);
      NextProbeOf(LOWEST, response, n);
      LowProbe(After(LOWEST, response, n - 1), response, a, b, n - 2);
    }
  }

  // From 14 completed probes on, the search from above returns the upper end
  // of the window, the one from below the lower end; 0 when nothing locks.
  lemma {:induction false} SearchFindsTheEnds(response: int -> nat, a: int, b: int, n: nat)
    requires Locks(response, a, b) && n >= ENOUGH
    ensures After(HIGHEST, response, n).save == if a <= b then b else 0
    ensures After(LOWEST, response, n).save == if a <= b then a else 0
  {
    HighSearch(response, a, b, n);
    LowSearch(response, a, b, n);
    GapsByHand(n - 1);
  }

  lemma GoesDown(s: Search, response: int -> nat, n: nat)
    requires Locks(response, LOWEST + 1, LOWEST + 1) && Halving(s, n) && n <= 11 && s.low == LOWEST && s.save == 0
    ensures Probed(s, HIGHEST, response(s.value)).low == LOWEST && Probed(s, HIGHEST, response(s.value)).save == 0
  {
    WideGap(n);
    ValueInside(s, n);
    hide Gap;
    assert s.value > LOWEST + 1;
  }

  lemma {:induction false} WideGap(n: nat)
    requires n <= 11
    ensures Gap(n) >= 4
  {
    GapsByHand(n);
  }

  // While the only value that locks is the lowest but one, every probe goes
  // down.
  lemma {:induction false} AllGoDown(response: int -> nat, n: nat)
    requires Locks(response, LOWEST + 1, LOWEST + 1) && 1 <= n < ENOUGH
    ensures After(HIGHEST, response, n).low == LOWEST && After(HIGHEST, response, n).save == 0
  {
    hide After, Locks, Halving, HighFound, Probed;
    if n == 1 {
      FirstProbe(response, LOWEST + 1, LOWEST + 1);
    } else {
      AllGoDown(response, n - 1);
      HighSearch(response, LOWEST + 1, LOWEST + 1, n - 1);
      NextProbeOf(HIGHEST, response, n);
      GoesDown(After(HIGHEST, response, n - 1), response, n - 2);
    }
  }

  // So one probe fewer is not enough in general.
  lemma {:induction false} ThirteenAreTooFew(response: int -> nat)
    requires Locks(response, LOWEST + 1, LOWEST + 1)
    ensures After(HIGHEST, response, ENOUGH - 1).save == 0
  {
    AllGoDown(response, ENOUGH - 1);
  }

  /* ---------- every monotone response has such a window ---------- */

  ghost predicate Falling(response: int -> nat) {
    forall v, w :: LOWEST <= v <= w <= HIGHEST ==> response(v) >= response(w)
  }

  // First value from v on that no longer counts too high (more than limit).
  function FirstBelow(response: int -> nat, limit: nat, v: int): (r: int)
    requires LOWEST <= v <= HIGHEST && response(HIGHEST) < limit
    ensures v <= r <= HIGHEST && response(r) < limit
    ensures forall u :: v <= u < r ==> response(u) >= limit
    decreases HIGHEST - v
  {
    if response(v) < limit then v else FirstBelow(response, limit, v + 1)
  }

  // Any falling response that counts too high at the bottom and not at all at
  // the top locks in exactly one window.
  lemma FallingResponseLocks(response: int -> nat) returns (a: int, b: int)
    requires Falling(response) && response(LOWEST) > 0xF && response(HIGHEST) < 0x1
    ensures Locks(response, a, b)
    ensures a <= b <==> exists v :: LOWEST <= v <= HIGHEST && 0x1 <= response(v) <= 0xF
  {
    a := FirstBelow(response, 0x10, LOWEST);
    b := FirstBelow(response, 0x1, LOWEST) - 1;
    assert response(b + 1) < 0x10;
    assert a <= b + 1;
    forall v | LOWEST <= v <= HIGHEST
      ensures (response(v) > 0xF <==> v < a) && (response(v) < 0x1 <==> v > b)
    {
      if v >= a {
        assert response(a) >= response(v);
      }
      if v > b {
        assert response(b + 1) >= response(v);
      }
    }
    if a <= b {
      assert 0x1 <= response(a) <= 0xF;
    }
  }

  /* ---------- the procedures ---------- */

  // Whether probe i completes within the allowed reads.
  predicate Completes(ready: (nat, nat) -> bool, i: nat, polls: nat) {
    polls > 0 && (ready(i, polls - 1) || Completes(ready, i, polls - 1))
  }

  function Completed(ready: (nat, nat) -> bool, n: nat): (c: nat)
    ensures c <= n
  {
    if n == 0 then 0 else Completed(ready, n - 1) + if Completes(ready, n - 1, 100) then 1 else 0
  }

  lemma {:induction false} CompletesLater(ready: (nat, nat) -> bool, i: nat, m: nat, n: nat)
    requires m <= n && Completes(ready, i, m)
    ensures Completes(ready, i, n)
  {
    if m < n {
      CompletesLater(ready, i, m, n - 1);
    }
  }

  // M23_GetMarkClk.  A probe whose reads never complete changes nothing.
  method GetMarkClk(start: int, response: int -> nat, ready: (nat, nat) -> bool) returns (save: int)
    ensures save == After(start, response, Completed(ready, PROBES)).save
  {
    hide After, Completed;
    NoProbe(start, response, ready);
    var low, high, value := LOWEST, HIGHEST, start;
    save := 0;
    for i := 0 to PROBES
      invariant Search(low, high, value, save) == After(start, response, Completed(ready, i))
    {
      NextProbe(start, response, ready, i);
      ghost var before := Search(low, high, value, save);
      var count := 0;
      var done := false;
      while count < READS && !done
        invariant count <= READS && (done ==> Completes(ready, i, READS))
        invariant !done ==> !Completes(ready, i, count)
        invariant Search(low, high, value, save)
               == if done then Probed(before, start, response(before.value)) else before
        decreases READS - count, !done
      {
        if ready(i, count) {
          CompletesLater(ready, i, count + 1, READS);
          var mark := response(value);
          if mark > 0xF {
            low := value;
            value := value + (high - value) / 2;
          } else if mark < 0x1 {
            high := value;
            value := value - (high - low) / 2;
          } else {
            save := value;
            if start == HIGHEST {
              low := value;
              value := value + (high - value) / 2;
            } else {
              high := value;
              value := value - (high - low) / 2;
            }
          }
          done := true;
        } else {
          count := count + 1;
        }
      }
    }
  }

  lemma {:induction false} NoProbe(start: int, response: int -> nat, ready: (nat, nat) -> bool)
    ensures After(start, response, Completed(ready, 0)) == Begin(start)
  {
  }

  lemma NextProbe(start: int, response: int -> nat, ready: (nat, nat) -> bool, i: nat)
    ensures var s := After(start, response, Completed(ready, i));
      After(start, response, Completed(ready, i + 1))
      == if Completes(ready, i, READS) then Probed(s, start, response(s.value)) else s
  {
    hide Completes;
  }

  // M23_TrainTimeCode, on a response that locks somewhere and hardware that
  // completes 14 of the 26 probes of each search.
  method TrainTimeCode(response: int -> nat, readyHigh: (nat, nat) -> bool, readyLow: (nat, nat) -> bool,
                       ghost a: int, ghost b: int) returns (dac: int)
    requires Locks(response, a, b) && a <= b
    requires Completed(readyHigh, 26) >= 14 && Completed(readyLow, 26) >= 14
    ensures dac == (a + b) / 2 && a <= dac <= b && 0x1 <= response(dac) <= 0xF
  {
    SearchFindsTheEnds(response, a, b, Completed(readyHigh, PROBES));
    SearchFindsTheEnds(response, a, b, Completed(readyLow, PROBES));
    var high := GetMarkClk(HIGHEST, response, readyHigh);
    var low := GetMarkClk(LOWEST, response, readyLow);
    dac := (high + low) / 2;
  }
}
