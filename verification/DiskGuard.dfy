// The three places that keep a recording inside the cartridge: Media and
// RecordFile (M23_Controller.c) before it starts, the control loop
// (M23_Control.c) while it runs.  All arithmetic is unsigned 32 bit.
module DiskGuard {
  import opened Bytes

  const SYSTEM_BLOCKS_RESERVED := 131072

  function Difference(a: U32, b: U32): U32 {
    (a - b) % 0x1_0000_0000
  }

  // Media: blocks it reports as remaining.
  function Remaining(total: U32, used: U32): U32 {
    if used >= total then 0
    else if total - used < SYSTEM_BLOCKS_RESERVED + 1 then 0
    else total - used
  }

  // RecordFile: whether there is room for a recording.
  predicate Accepts(total: U32, used: U32) {
    !(Difference(total, used) <= SYSTEM_BLOCKS_RESERVED || used >= total)
  }

  // A recording is accepted exactly when Media reports room, and then the
  // whole reserve lies behind it.  What is reported is all that is unused.
  lemma AcceptsIffRoomReported(total: U32, used: U32)
    ensures Remaining(total, used) == if used + 131072 < total then total - used else 0
    ensures Accepts(total, used) <==> Remaining(total, used) != 0
    ensures Accepts(total, used) <==> used + SYSTEM_BLOCKS_RESERVED < total
  {
  }

  // The control loop's test for a full cartridge.
  predicate Full(total: U32, pointer: U32) {
    Difference(total, pointer) <= SYSTEM_BLOCKS_RESERVED
  }

  datatype Progress = Progress(pointer: U32, recording: bool)

  // Between two turns of the control loop the hardware records d blocks.
  function Turn(total: U32, p: Progress, d: nat): Progress {
    if !p.recording then p
    else
      var pointer := (p.pointer + d) % 0x1_0000_0000;
      Progress(pointer, !Full(total, pointer))
  }

  function Run(total: U32, start: U32, moves: seq<nat>): Progress {
    if moves == [] then Progress(start, true)
    else Turn(total, Run(total, start, moves[..|moves| - 1]), moves[|moves| - 1])
  }

  ghost predicate AtMost(moves: seq<nat>, bound: nat) {
    forall i :: 0 <= i < |moves| ==> moves[i] <= bound
  }

  lemma {:induction false} ReserveIsEnough(total: U32, start: U32, moves: seq<nat>)
    requires Accepts(total, start) && AtMost(moves, SYSTEM_BLOCKS_RESERVED)
    ensures var p := Run(total, start, moves);
      p.pointer < total && (p.recording ==> p.pointer + SYSTEM_BLOCKS_RESERVED < total)
  {
    if moves != [] {
      ReserveIsEnough(total, start, moves[..|moves| - 1]);
    }
  }

  function Steps(n: nat): (moves: seq<nat>)
    ensures |moves| == n && AtMost(moves, 1)
  {
    seq(n, _ => 1)
  }

  lemma OneMore(total: U32, pointer: U32)
    requires pointer + 1 + SYSTEM_BLOCKS_RESERVED < total
    ensures Turn(total, Progress(pointer, true), 1) == Progress(pointer + 1, true)
  {
  }

  // Block by block the recording reaches any place in front of the reserve.
  lemma {:induction false} Approaches(total: U32, start: U32, n: nat)
    requires Accepts(total, start) && start + n + SYSTEM_BLOCKS_RESERVED < total
    ensures Run(total, start, Steps(n)) == Progress(start + n, true)
  {
    if n > 0 {
      Approaches(total, start, n - 1);
      assert Steps(n)[..n - 1] == Steps(n - 1) && Steps(n)[n - 1] == 1;
      assert Run(total, start, Steps(n)) == Turn(total, Progress(start + n - 1, true), 1);
      hide *;
      OneMore(total, start + n - 1);
    }
  }

  // A last move of d blocks behind n single ones.
  lemma {:induction false} LastMove(total: U32, start: U32, n: nat, d: nat)
    requires Accepts(total, start) && start + n + SYSTEM_BLOCKS_RESERVED < total && start + n + d < 0x1_0000_0000
    ensures Run(total, start, Steps(n) + [d]) == Progress(start + n + d, !Full(total, start + n + d))
  {
    Approaches(total, start, n);
    var moves := Steps(n) + [d];
    assert moves[..n] == Steps(n) && moves[n] == d && |moves| == n + 1;
    hide Full, Steps, Accepts;
  }

  // Moves after which the pointer is behind the usable blocks, when the
  // hardware may record more than the reserve between two turns.
  lemma LeapsTheReserve(total: U32, start: U32) returns (moves: seq<nat>)
    requires Accepts(total, start)
    ensures AtMost(moves, SYSTEM_BLOCKS_RESERVED + 1) && Run(total, start, moves).pointer == total
  {
    AcceptsIffRoomReported(total, start);
    var n := total - start - SYSTEM_BLOCKS_RESERVED - 1;
    hide Accepts, Full, Run;
    LastMove(total, start, n, SYSTEM_BLOCKS_RESERVED + 1);
    moves := Steps(n) + [SYSTEM_BLOCKS_RESERVED + 1];
  }

  ghost predicate StaysBelow(total: U32, start: U32, moves: seq<nat>) {
    Run(total, start, moves).pointer < total
  }

  // From every accepted start the record pointer stays strictly below the
  // usable block count in every run, if and only if the hardware records at
  // most the reserve between two turns.
  lemma NeverOverruns(total: U32, start: U32, bound: nat)
    requires Accepts(total, start)
    ensures (forall moves :: AtMost(moves, bound) ==> StaysBelow(total, start, moves))
        <==> bound <= SYSTEM_BLOCKS_RESERVED
  {
    if bound <= SYSTEM_BLOCKS_RESERVED {
      forall moves | AtMost(moves, bound) ensures StaysBelow(total, start, moves) {
        ReserveIsEnough(total, start, moves);
      }
    } else {
      var moves := LeapsTheReserve(total, start);
      assert AtMost(moves, bound) && !StaysBelow(total, start, moves);
    }
  }

  lemma FullBehindTheEnd(total: U32, beyond: nat)
    requires 1 <= beyond && total + beyond < 0x1_0000_0000
    ensures Full(total, total + beyond) <==> beyond >= 0x1_0000_0000 - SYSTEM_BLOCKS_RESERVED
  {
  }

  // A pointer that leapt over the end is not noticed: the unsigned difference
  // is large again, and the recording goes on.
  lemma OverrunIsNotNoticed(total: U32, start: U32, beyond: nat) returns (moves: seq<nat>)
    requires Accepts(total, start) && 1 <= beyond && total + beyond < 0x1_0000_0000
    ensures AtMost(moves, SYSTEM_BLOCKS_RESERVED + 1 + beyond)
    ensures Run(total, start, moves).recording <==> beyond < 0x1_0000_0000 - SYSTEM_BLOCKS_RESERVED
    ensures Run(total, start, moves).pointer == total + beyond
  {
    AcceptsIffRoomReported(total, start);
    var n := total - start - SYSTEM_BLOCKS_RESERVED - 1;
    FullBehindTheEnd(total, beyond);
    hide Accepts, Full, Run;
    LastMove(total, start, n, SYSTEM_BLOCKS_RESERVED + 1 + beyond);
    moves := Steps(n) + [SYSTEM_BLOCKS_RESERVED + 1 + beyond];
  }
}
