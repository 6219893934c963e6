// Measurement conversion of M23_DataConversion.c: gathering the masked bits of
// a data word, and the threshold detectors of one-operand conversions.
module DataConversion {
  import opened Bytes
  import opened Bits

  /* ---------- bit gather ---------- */

  function Ones(mask: nat): nat {
    if mask == 0 then 0 else Ones(mask / 2) + mask % 2
  }

  // The bits of word at the places set in mask, moved together.
  function Gather(word: nat, mask: nat): nat {
    if mask == 0 then 0
    else if mask % 2 == 1 then 2 * Gather(word / 2, mask / 2) + word % 2
    else Gather(word / 2, mask / 2)
  }

  // The low-order bits of x, spread out to the places set in mask.
  function Scatter(x: nat, mask: nat): nat {
    if mask == 0 then 0
    else if mask % 2 == 1 then 2 * Scatter(x / 2, mask / 2) + x % 2
    else 2 * Scatter(x, mask / 2)
  }

  lemma {:induction false} GatherFits(word: nat, mask: nat)
    ensures Gather(word, mask) < Power2(Ones(mask))
  {
    if mask != 0 {
      GatherFits(word / 2, mask / 2);
    }
  }

  // Scattering what was gathered gives back the masked word.
  lemma {:induction false} ScatterUndoesGather(word: nat, mask: nat)
    ensures Scatter(Gather(word, mask), mask) == And(word, mask)
  {
    if mask != 0 {
      ScatterUndoesGather(word / 2, mask / 2);
      if word == 0 {
        AndZero(mask / 2);
      }
    }
  }

  lemma {:induction false} AndZero(mask: nat)
    ensures And(0, mask) == 0
  {
  }

  lemma {:induction false} GatherUndoesScatter(x: nat, mask: nat)
    requires x < Power2(Ones(mask))
    ensures Gather(Scatter(x, mask), mask) == x
  {
    if mask != 0 {
      GatherUndoesScatter(if mask % 2 == 1 then x / 2 else x, mask / 2);
    }
  }

  // How many places of mask lie below i.
  function Rank(mask: nat, i: nat): nat {
    if i == 0 then 0 else mask % 2 + Rank(mask / 2, i - 1)
  }

  // The masked bits keep their order: the one at place i becomes the bit
  // whose number is the count of masked places below i.
  lemma {:induction false} GatherKeepsOrder(word: nat, mask: nat, i: nat)
    requires Bit(mask, i)
    ensures Bit(Gather(word, mask), Rank(mask, i)) <==> Bit(word, i)
  {
    if mask == 0 {
      ZeroHasNoBits(i);
    } else if i > 0 {
      GatherKeepsOrder(word / 2, mask / 2, i - 1);
      assert mask % 2 == 1 ==> Gather(word, mask) / 2 == Gather(word / 2, mask / 2);
    }
  }

  // The gather of the lowest n places.
  function GatherFrom(word: nat, mask: nat, n: nat): nat
    decreases n
  {
    if n == 0 then 0
    else if mask % 2 == 1 then 2 * GatherFrom(word / 2, mask / 2, n - 1) + word % 2
    else GatherFrom(word / 2, mask / 2, n - 1)
  }

  lemma {:induction false} NextPlace(word: nat, mask: nat, n: nat)
    ensures Rank(mask, n + 1) == Rank(mask, n) + if Bit(mask, n) then 1 else 0
    ensures GatherFrom(word, mask, n + 1)
         == GatherFrom(word, mask, n) + if Bit(mask, n) && Bit(word, n) then Power2(Rank(mask, n)) else 0
    ensures GatherFrom(word, mask, n) < Power2(Rank(mask, n))
    decreases n
  {
    if n == 0 {
      assert Rank(mask, 1) == mask % 2 + Rank(mask / 2, 0);
      assert GatherFrom(word / 2, mask / 2, 0) == 0;
    } else {
      NextPlace(word / 2, mask / 2, n - 1);
    }
  }

  lemma {:induction false} GatherOfWidth(word: nat, mask: nat, width: nat)
    requires mask < Power2(width)
    ensures GatherFrom(word, mask, width) == Gather(word, mask)
    decreases width
  {
    if width > 0 {
      GatherOfWidth(word / 2, mask / 2, width - 1);
      if mask == 0 {
        assert Gather(word / 2, mask / 2) == 0;
      }
    }
  }

  lemma {:induction false} LowOfPower(n: nat)
    ensures Low(Power2(n), n) == 0
  {
    if n > 0 {
      LowOfPower(n - 1);
    }
  }

  // ReturnDataWord, for words of any width.
  method ReturnDataWord(word: nat, mask: nat, width: nat) returns (dw: nat)
    requires word < Power2(width) && mask < Power2(width)
    ensures dw == Gather(word, mask)
  {
    var shift := 0;
    dw := 0;
    var bits := And(word, mask);
    for i := 0 to width
      invariant shift == Rank(mask, i)
      invariant dw == GatherFrom(word, mask, i)
    {
      NextPlace(word, mask, i);
      AndBits(word, mask, i);
      if Bit(mask, i) {
        if Bit(bits, i) {
          LowOfPower(shift);
          OrIsSum(dw, Power2(shift), shift);
          dw := Or(dw, Power2(shift));
        }
        shift := shift + 1;
      }
    }
    GatherOfWidth(word, mask, width);
  }

  /* ---------- threshold detectors ---------- */

  type Int32Value = x: int | -0x8000_0000 <= x < 0x8000_0000

  datatype Operator =
    | Equal | NotEqual | LessEqual | GreaterEqual | Less | Greater | LogicalOr | LogicalAnd
    | BitOr | BitAnd | BitXor
    | Add | Subtract | Multiply | Divide | Modulo

  predicate Arithmetic(o: Operator) {
    o.Add? || o.Subtract? || o.Multiply? || o.Divide? || o.Modulo?
  }

  // A conversion with one operand, from the setup.
  datatype Detector = Detector(mode: nat, operator: Operator, highLimit: Int32Value, lowLimit: Int32Value)

  // The two threshold flags.
  datatype Flags = Flags(high: bool, low: bool)

  datatype Zone = Above | Between | Below

  // High above the high limit, low below the low limit; the high zone is
  // looked at first.  Mode 5 has no low zone, mode 6 no high one.
  function ZoneOf(d: Detector, v: int): Zone {
    if (d.mode == 4 || d.mode == 5) && v > d.highLimit then Above
    else if (d.mode == 4 || d.mode == 6) && v < d.lowLimit then Below
    else Between
  }

  predicate IsThreshold(d: Detector) {
    4 <= d.mode <= 6
  }

  datatype Outcome = Outcome(flags: Flags, event: bool) | DivisionByZero

  // What follows the threshold branches when they do not return: both
  // operands are 0, and the operator is applied to them.
  function FallThrough(d: Detector, f: Flags): Outcome {
    if d.operator.Modulo? then DivisionByZero
    else if !Arithmetic(d.operator) then Outcome(f, false)
    else if d.mode == 5 then Outcome(f.(high := 0 > d.highLimit), 0 > d.highLimit && !f.high)
    else if d.mode == 6 then Outcome(f.(low := 0 < d.lowLimit), 0 < d.lowLimit && !f.low)
    else Outcome(f, false)
  }

  // M23_DoCalculation for one operand in mode 4, 5 or 6.
  function Calculated(d: Detector, f: Flags, v: int): Outcome
    requires IsThreshold(d)
  {
    match ZoneOf(d, v)
    case Above => Outcome(if d.mode == 4 then Flags(true, false) else f.(high := true), !f.high)
    case Below => Outcome(if d.mode == 4 then Flags(false, true) else f.(low := true), !f.low)
    case Between =>
      FallThrough(d, match d.mode case 4 => Flags(false, false) case 5 => f.(high := false) case _ => f.(low := false))
  }

  // Flags that record a zone.
  function FlagsOf(z: Zone): Flags {
    Flags(z == Above, z == Below)
  }

  // Samples one after the other, from cleared flags; an event for each.
  datatype Trace = Trace(flags: Flags, events: seq<bool>) | Trapped

  function Run(d: Detector, samples: seq<Int32Value>): Trace
    requires IsThreshold(d)
  {
    if samples == [] then Trace(Flags(false, false), [])
    else
      match Run(d, samples[..|samples| - 1])
      case Trapped => Trapped
      case Trace(flags, events) =>
        match Calculated(d, flags, samples[|samples| - 1])
        case DivisionByZero => Trapped
        case Outcome(f, event) => Trace(f, events + [event])
  }

  // The zone a value lies in, as the setup describes it: more than the high
  // limit, unless only a low limit is set, and less than the low limit, unless
  // only a high one is.
  function Lies(d: Detector, v: int): Zone
    requires IsThreshold(d)
  {
    if d.mode != 6 && d.highLimit < v then Above
    else if d.mode != 5 && d.lowLimit > v then Below
    else Between
  }

  // Zone of the last sample; between the limits before any.
  function LastZone(d: Detector, samples: seq<Int32Value>): Zone
    requires IsThreshold(d)
  {
    if samples == [] then Between else Lies(d, samples[|samples| - 1])
  }

  // An event exactly where a sample enters the high or the low zone from a
  // different zone; the flags record the zone of the last sample.
  ghost predicate IsEdgeTrace(d: Detector, samples: seq<Int32Value>, t: Trace)
    requires IsThreshold(d)
  {
    && t.Trace?
    && t.flags == FlagsOf(LastZone(d, samples))
    && |t.events| == |samples|
    && forall i :: 0 <= i < |samples| ==>
         (t.events[i] <==> Lies(d, samples[i]) != Between && Lies(d, samples[i]) != LastZone(d, samples[..i]))
  }

  // Which setups detect edges: all operators but the arithmetic ones; those
  // only when the value 0, on which they fall back, lies outside the zone,
  // and the remainder only when no value lies between the limits.
  predicate Proper(d: Detector) {
    if d.operator.Modulo? then d.mode == 4 && d.highLimit < d.lowLimit
    else if Arithmetic(d.operator) then
      (d.mode == 5 ==> d.highLimit >= 0) && (d.mode == 6 ==> d.lowLimit <= 0)
    else true
  }

  lemma ProperSampleIsEdge(d: Detector, z: Zone, v: Int32Value)
    requires IsThreshold(d) && Proper(d) && (d.mode == 5 ==> z != Below) && (d.mode == 6 ==> z != Above)
    ensures Calculated(d, FlagsOf(z), v) == Outcome(FlagsOf(Lies(d, v)), Lies(d, v) != Between && Lies(d, v) != z)
  {
  }

  lemma {:induction false} ProperRunIsEdge(d: Detector, samples: seq<Int32Value>)
    requires IsThreshold(d) && Proper(d)
    ensures IsEdgeTrace(d, samples, Run(d, samples))
  {
    if samples != [] {
      var rest, v := samples[..|samples| - 1], samples[|samples| - 1];
      ProperRunIsEdge(d, rest);
      ProperSampleIsEdge(d, LastZone(d, rest), v);
      forall i | 0 <= i < |rest| ensures rest[..i] == samples[..i] {
      }
    }
  }

  // Over every sample sequence events are edges, exactly for the proper
  // setups.
  lemma {:induction false} EventsAreEdges(d: Detector)
    requires IsThreshold(d)
    ensures (forall samples :: IsEdgeTrace(d, samples, Run(d, samples))) <==> Proper(d)
  {
    if Proper(d) {
      forall samples: seq<Int32Value> ensures IsEdgeTrace(d, samples, Run(d, samples)) {
        ProperRunIsEdge(d, samples);
      }
    } else {
      var v := if d.mode == 6 then d.lowLimit else if d.mode == 5 then d.highLimit
               else d.lowLimit;
      var samples := [v];
      assert samples[..0] == [];
      assert Lies(d, v) == Between;
      assert !IsEdgeTrace(d, samples, Run(d, samples));
    }
  }

  // The entry of the conversion table, updated in place.
  class Conversion {
    const detector: Detector
    var currentValue: Int32Value
    var highThreshold: bool
    var lowThreshold: bool
    var initialTrigger: Byte

    constructor (detector: Detector)
      ensures this.detector == detector && !highThreshold && !lowThreshold
    {
      this.detector := detector;
      currentValue, highThreshold, lowThreshold, initialTrigger := 0, false, false, 0;
    }

    ghost function State(): Flags
      reads this
    {
      Flags(highThreshold, lowThreshold)
    }

    // M23_DoCalculation with one operand, for a bus or a PCM measurement.
    // trapped: it divided by zero.
    method DoCalculation(isBus: bool) returns (event: bool, trapped: bool)
      requires IsThreshold(detector)
      modifies this`highThreshold, this`lowThreshold, this`initialTrigger
      ensures var o := Calculated(detector, old(State()), currentValue);
        if trapped then o == DivisionByZero else o == Outcome(State(), event)
    {
      event, trapped := false, false;
      var returned;
      if isBus {
        event, returned := BusThresholds();
      } else {
        event, returned := PcmThresholds();
      }
      if returned {
        return;
      }
      initialTrigger := 0xFF;
      event, trapped := ApplyOperator();
    }

    method BusThresholds() returns (event: bool, returned: bool)
      requires IsThreshold(detector)
      modifies this`highThreshold, this`lowThreshold
      ensures returned <==> ZoneOf(detector, currentValue) != Between
      ensures if returned then Calculated(detector, old(State()), currentValue) == Outcome(State(), event)
              else !event && Calculated(detector, old(State()), currentValue) == FallThrough(detector, State())
    {
      event, returned := false, false;
      if detector.mode == 4 {
        if currentValue > detector.highLimit {
          event := !highThreshold;
          highThreshold := true;
          lowThreshold := false;
          return event, true;
        } else {
          highThreshold := false;
        }
        if currentValue < detector.lowLimit {
          event := !lowThreshold;
          lowThreshold := true;
          highThreshold := false;
          return event, true;
        } else {
          lowThreshold := false;
        }
      } else if detector.mode == 5 {
        if currentValue > detector.highLimit {
          event := !highThreshold;
          highThreshold := true;
          return event, true;
        } else {
          highThreshold := false;
        }
      } else if detector.mode == 6 {
        if currentValue < detector.lowLimit {
          event := !lowThreshold;
          lowThreshold := true;
          return event, true;
        } else {
          lowThreshold := false;
        }
      }
    }

    // The source writes the same branches out again for PCM.
    method PcmThresholds() returns (event: bool, returned: bool)
      requires IsThreshold(detector)
      modifies this`highThreshold, this`lowThreshold
      ensures returned <==> ZoneOf(detector, currentValue) != Between
      ensures if returned then Calculated(detector, old(State()), currentValue) == Outcome(State(), event)
              else !event && Calculated(detector, old(State()), currentValue) == FallThrough(detector, State())
    {
      event, returned := false, false;
      if detector.mode == 4 {
        if currentValue > detector.highLimit {
          event := !highThreshold;
          highThreshold := true;
          lowThreshold := false;
          return event, true;
        } else {
          highThreshold := false;
        }
        if currentValue < detector.lowLimit {
          event := !lowThreshold;
          lowThreshold := true;
          highThreshold := false;
          return event, true;
        } else {
          lowThreshold := false;
        }
      } else if detector.mode == 5 {
        if currentValue > detector.highLimit {
          event := !highThreshold;
          highThreshold := true;
          return event, true;
        } else {
          highThreshold := false;
        }
      } else if detector.mode == 6 {
        if currentValue < detector.lowLimit {
          event := !lowThreshold;
          lowThreshold := true;
          return event, true;
        } else {
          lowThreshold := false;
        }
      }
    }

    // The operator on two operands that are both 0, and what modes 5 and 6
    // make of its result.
    method ApplyOperator() returns (event: bool, trapped: bool)
      requires IsThreshold(detector)
      modifies this`highThreshold, this`lowThreshold
      ensures var o := FallThrough(detector, old(State()));
        if trapped then o == DivisionByZero else o == Outcome(State(), event)
    {
      event, trapped := false, false;
      var result := 0;
      match detector.operator {
        case Equal => result := 1;
        case LessEqual => result := 1;
        case GreaterEqual => result := 1;
        case Modulo => return false, true;
        case _ => result := 0;
      }
      if Arithmetic(detector.operator) {
        if detector.mode == 5 {
          event := result > detector.highLimit && !highThreshold;
          highThreshold := result > detector.highLimit;
        } else if detector.mode == 6 {
          event := result < detector.lowLimit && !lowThreshold;
          lowThreshold := result < detector.lowLimit;
        }
      }
    }
  }
}
