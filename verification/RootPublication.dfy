// Root packets and the directory together: over a recording, what the queue of
// roots reports is what the directory's entry of the recording says.
module RootPublication {
  import opened Bytes
  import opened DirectoryFormat
  import opened Volume
  import opened Runs
  import opened Tally
  import Q = RootQueue

  // One call for a root, and the publication it leads to.
  datatype Turn = Turn(poll: Q.Poll, connected: bool, time: Text8)

  function Polls(turns: seq<Turn>): (polls: seq<Q.Poll>)
    ensures |polls| == |turns| && forall i :: 0 <= i < |turns| ==> polls[i] == turns[i].poll
  {
    seq(|turns|, i requires 0 <= i < |turns| => turns[i].poll)
  }

  // What the last call reports.
  function LastReport(q: Q.Queue, cursor: U64, turns: seq<Turn>): Q.Report
    requires Q.WellFormed(q) && turns != []
  {
    Q.LastAnswer(q, cursor, Polls(turns))
  }

  // The control loop takes offset 0 for no report.
  predicate Reports(r: Q.Report) {
    r.Report? && r.offset > 0
  }

  // The updates of the directory.
  function Updates(q: Q.Queue, cursor: U64, turns: seq<Turn>): seq<Op>
    requires Q.WellFormed(q)
  {
    if turns == [] then []
    else
      var r, t := LastReport(q, cursor, turns), turns[|turns| - 1];
      Updates(q, cursor, turns[..|turns| - 1])
      + if Reports(r) then [Publish(r.offset, r.len, true, t.connected, t.time)] else []
  }

  lemma PollsOfPrefix(turns: seq<Turn>)
    requires turns != []
    ensures Polls(turns)[..|turns| - 1] == Polls(turns[..|turns| - 1])
  {
  }

  // The updates carry the offsets reported, in order.
  lemma {:induction false} UpdatesCarryOffsets(q: Q.Queue, cursor: U64, turns: seq<Turn>)
    requires Q.WellFormed(q)
    ensures var ops, offsets := Updates(q, cursor, turns), Q.Offsets(q, cursor, Polls(turns));
      && |ops| == |offsets|
      && forall i :: 0 <= i < |ops| ==> ops[i].Publish? && ops[i].present && ops[i].offset == offsets[i]
  {
    hide Q.LastAnswer;
    if turns != [] {
      UpdatesCarryOffsets(q, cursor, turns[..|turns| - 1]);
      PollsOfPrefix(turns);
    }
  }

  // Roots lie one behind the other.
  ghost predicate InOrder(polls: seq<Q.Poll>) {
    forall i, j :: 0 <= i < j < |polls| && polls[i].Ready? && polls[j].Ready? ==>
      Q.Position(polls[i].root) + polls[i].root.length <= Q.Position(polls[j].root)
  }

  // The root that an update names, received by then and below the record
  // pointer.
  ghost predicate Names(op: Op, p: Q.Poll, now: Q.Poll, cursor: U64)
    requires op.Publish?
  {
    p.Ready? && now.Ready? && op.offset == Q.Position(p.root) && op.pktLen == p.root.length
    && Q.BlockOf(p.root, cursor) < now.pointer
  }

  ghost predicate Backs(op: Op, polls: seq<Q.Poll>, cursor: U64) {
    op.Publish? && exists i, n :: 0 <= i <= n < |polls| && Names(op, polls[i], polls[n], cursor)
  }

  ghost predicate AllBacked(ops: seq<Op>, polls: seq<Q.Poll>, cursor: U64) {
    forall i :: 0 <= i < |ops| ==> Backs(ops[i], polls, cursor)
  }

  lemma BacksMore(op: Op, polls: seq<Q.Poll>, p: Q.Poll, cursor: U64)
    requires Backs(op, polls, cursor)
    ensures Backs(op, polls + [p], cursor)
  {
    var i, n :| 0 <= i <= n < |polls| && Names(op, polls[i], polls[n], cursor);
    var all := polls + [p];
    assert all[i] == polls[i] && all[n] == polls[n];
    assert Names(op, all[i], all[n], cursor);
  }

  lemma AllBackedMore(ops: seq<Op>, more: seq<Op>, polls: seq<Q.Poll>, p: Q.Poll, cursor: U64)
    requires AllBacked(ops, polls, cursor) && AllBacked(more, polls + [p], cursor)
    ensures AllBacked(ops + more, polls + [p], cursor)
  {
    hide Backs;
    forall i | 0 <= i < |ops| ensures Backs((ops + more)[i], polls + [p], cursor) {
      BacksMore(ops[i], polls, p, cursor);
    }
  }

  // In a recording that starts clean every update names such a root.
  lemma {:induction false} UpdatesAreBacked(q: Q.Queue, cursor: U64, turns: seq<Turn>)
    requires Q.WellFormed(q) && Q.Clean(Q.RecordingStarted(q))
    ensures AllBacked(Updates(Q.RecordingStarted(q), cursor, turns), Polls(turns), cursor)
  {
    hide Backs, Q.Clean, LastReport;
    if turns != [] {
      var start, rest := Q.RecordingStarted(q), turns[..|turns| - 1];
      var r, t := LastReport(start, cursor, turns), turns[|turns| - 1];
      UpdatesAreBacked(q, cursor, rest);
      assert Polls(turns) == Polls(rest) + [t.poll];
      var more := if Reports(r) then [Publish(r.offset, r.len, true, t.connected, t.time)] else [];
      if Reports(r) {
        LastIsBacked(q, cursor, turns);
      }
      AllBackedMore(Updates(start, cursor, rest), more, Polls(rest), t.poll, cursor);
    }
  }

  lemma LastIsBacked(q: Q.Queue, cursor: U64, turns: seq<Turn>)
    requires Q.WellFormed(q) && Q.Clean(Q.RecordingStarted(q)) && turns != []
    requires Reports(LastReport(Q.RecordingStarted(q), cursor, turns))
    ensures var r, t := LastReport(Q.RecordingStarted(q), cursor, turns), turns[|turns| - 1];
      Backs(Publish(r.offset, r.len, true, t.connected, t.time), Polls(turns), cursor)
  {
    var start, polls := Q.RecordingStarted(q), Polls(turns);
    Q.CleanRunIsSafe(q, cursor, polls);
    var r, t := LastReport(start, cursor, turns), turns[|turns| - 1];
    hide Q.LastAnswer, Q.BlockOf, Q.Position;
    var j :| 0 <= j < |polls| && Q.Names(r, polls[j], cursor, polls[|polls| - 1]);
    assert Names(Publish(r.offset, r.len, true, t.connected, t.time), polls[j], polls[|polls| - 1], cursor);
  }

  // The bytes a reader of the directory finds, after the last update.
  ghost predicate Shown(v: Vol, op: Op)
    requires op.Publish?
  {
    Files(v) != [] && Files(v)[|Files(v)| - 1].size == (op.offset + op.pktLen) % TWO64
  }

  lemma OneUpdate(probe: bool, v: Vol, op: Op)
    requires Sound(v) && v.isOpen && op.Publish? && op.present && IsPadded(op.time)
    ensures Enabled(probe, v, op)
    ensures Sound(Step(probe, v, op)) && Step(probe, v, op).isOpen && Shown(Step(probe, v, op), op)
  {
    StepKeepsSound(probe, v, op);
    OpenAfter(probe, v, op);
    hide Sound, Files, Step;
  }

  // While a recording is open its updates can all be made, and its entry shows
  // the last of them.
  lemma {:induction false} RecordingShows(probe: bool, v: Vol, q: Q.Queue, turns: seq<Turn>)
    requires Sound(v) && v.isOpen && Q.WellFormed(q)
    requires forall i :: 0 <= i < |turns| ==> IsPadded(turns[i].time)
    ensures var ops := Updates(q, v.writeBlock, turns);
      && Possible(probe, v, ops)
      && (var w := Run(probe, v, ops);
          Sound(w) && w.isOpen && (ops != [] ==> ops[|ops| - 1].Publish? && Shown(w, ops[|ops| - 1])))
  {
    hide Sound, Enabled, Step, Shown, LastReport;
    if turns == [] {
      assert Updates(q, v.writeBlock, turns) == [];
    } else {
      var before := Updates(q, v.writeBlock, turns[..|turns| - 1]);
      RecordingShows(probe, v, q, turns[..|turns| - 1]);
      var r, t := LastReport(q, v.writeBlock, turns), turns[|turns| - 1];
      if Reports(r) {
        var op := Publish(r.offset, r.len, true, t.connected, t.time);
        OneUpdate(probe, Run(probe, v, before), op);
        RunOfOne(probe, Run(probe, v, before), op);
        RunAppend(probe, v, before, [op]);
        assert Updates(q, v.writeBlock, turns) == before + [op];
      } else {
        assert Updates(q, v.writeBlock, turns) == before;
      }
    }
  }

  // A later update publishes a larger offset, and a size that is no smaller.
  predicate Outgrows(later: Op, earlier: Op) {
    && earlier.Publish? && later.Publish? && earlier.offset < later.offset
    && earlier.offset + earlier.pktLen <= later.offset + later.pktLen < TWO64
  }

  // A recording that starts with a clean queue and whose roots come one behind
  // the other: the offsets published strictly increase, the sizes they show in
  // the directory never decrease, and each is that of a root received before
  // whose block lies below the record pointer.
  lemma {:induction false} RecordingGrows(probe: bool, v: Vol, q: Q.Queue, turns: seq<Turn>)
    requires Sound(v) && v.isOpen && Q.WellFormed(q) && Q.Clean(Q.RecordingStarted(q))
    requires forall i :: 0 <= i < |turns| ==> IsPadded(turns[i].time)
    requires Q.Increasing(Polls(turns)) && InOrder(Polls(turns))
    ensures var ops := Updates(Q.RecordingStarted(q), v.writeBlock, turns);
      && Possible(probe, v, ops)
      && AllBacked(ops, Polls(turns), v.writeBlock)
      && (forall i, j :: 0 <= i < j < |ops| ==> Outgrows(ops[j], ops[i]))
      && (ops != [] ==> Shown(Run(probe, v, ops), ops[|ops| - 1]))
  {
    hide Sound, Run, Possible, Shown, Updates, Backs, Q.Clean, Q.Increasing, Q.Offsets, Q.ClearedEntries, Q.Fresh,
         Q.AllNotAbove, Polls, InOrder;
    var start, polls := Q.RecordingStarted(q), Polls(turns);
    var ops := Updates(start, v.writeBlock, turns);
    RecordingShows(probe, v, start, turns);
    UpdatesAreBacked(q, v.writeBlock, turns);
    UpdatesCarryOffsets(start, v.writeBlock, turns);
    Q.ReportedOffsetsIncrease(q, v.writeBlock, polls);
    forall i, j | 0 <= i < j < |ops| ensures Outgrows(ops[j], ops[i]) {
      assert ops[i].offset < ops[j].offset;
      SizesGrow(ops[i], ops[j], polls, v.writeBlock);
    }
  }

  lemma SizesGrow(a: Op, b: Op, polls: seq<Q.Poll>, cursor: U64)
    requires Backs(a, polls, cursor) && Backs(b, polls, cursor) && a.offset < b.offset
    requires Q.Increasing(polls) && InOrder(polls)
    ensures Outgrows(b, a)
  {
    hide Q.BlockOf, Q.Position;
    var i, n :| 0 <= i <= n < |polls| && Names(a, polls[i], polls[n], cursor);
    var j, m :| 0 <= j <= m < |polls| && Names(b, polls[j], polls[m], cursor);
    EarlierIsBelow(polls, j, i);
    assert i < j;
  }

  lemma EarlierIsBelow(polls: seq<Q.Poll>, j: nat, i: nat)
    requires i < |polls| && j < |polls| && polls[i].Ready? && polls[j].Ready? && Q.Increasing(polls)
    ensures j < i ==> Q.Position(polls[j].root) < Q.Position(polls[i].root)
    ensures j == i ==> Q.Position(polls[j].root) == Q.Position(polls[i].root)
  {
    hide Q.Position;
  }
}
