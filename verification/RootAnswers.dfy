// What each call of M23_GetRoot_UpdateNodes answers, told from the roots
// received alone.
module RootAnswers {
  import opened Bytes
  import opened NodeFile
  import opened RootQueue

  /* ---------- the words of a root ---------- */

  // The root of a packet of length bytes at byte p of the recording, with the
  // two words of its time stamp.
  function RootOf(p: U64, lsw: U32, msw: U16, length: U32): Root
    requires p < 0x1_0000_0000_0000
  {
    Root(p % 0x1_0000_0000, p / 0x1_0000_0000 + 0x1_0000 * (lsw % 0x1_0000), lsw / 0x1_0000 + 0x1_0000 * msw, length)
  }

  // It is found again at its byte, in its block, and its node gets its time in
  // a slot that was not used before.
  lemma RootCarries(p: U64, lsw: U32, msw: U16, length: U32, cursor: U64, prior: Node)
    requires p < 0x1_0000_0000_0000 && p / 512 + cursor < 0x1_0000_0000
    ensures var r := RootOf(p, lsw, msw, length);
      && Position(r) == p && r.length == length
      && 512 * (BlockOf(r, cursor) - cursor) <= p < 512 * (BlockOf(r, cursor) - cursor) + 512
      && RootNode(prior, r, cursor).eventInfo == prior.eventInfo
      && RootNode(prior, r, cursor).absTimeLsw == lsw
      && RootNode(prior, r, cursor).block == cursor + p / 512
      && (prior.absTimeMsw == 0 ==> RootNode(prior, r, cursor).absTimeMsw == msw)
  {
    Halves(p / 0x1_0000_0000, lsw % 0x1_0000);
    Halves(lsw / 0x1_0000, msw);
  }

  lemma Halves(low: nat, high: nat)
    requires low < 0x1_0000
    ensures (low + 0x1_0000 * high) % 0x1_0000 == low && (low + 0x1_0000 * high) / 0x1_0000 == high
  {
  }

  /* ---------- the roots that wait ---------- */

  // The roots received since the last report, as far as they are still looked
  // at: with its 240 slots used the index starts over.  Some of its slots are
  // used when the recording starts.
  datatype Pending = Pending(used: nat, roots: seq<Root>)

  function With(w: Pending, root: Root): Pending {
    if w.used == 240 then Pending(1, [root]) else Pending(w.used + 1, w.roots + [root])
  }

  // Block 0 is no block of a recording.
  predicate Ripe(root: Root, cursor: U64, pointer: U32) {
    0 < BlockOf(root, cursor) < pointer
  }

  predicate SomeRipe(roots: seq<Root>, cursor: U64, pointer: U32) {
    exists i :: 0 <= i < |roots| && Ripe(roots[i], cursor, pointer)
  }

  // There is something to report at a call: its own root lies below the
  // record pointer, or one that waits does.
  function Pends(used: nat, cursor: U64, polls: seq<Poll>): Pending {
    if polls == [] then Pending(used, [])
    else
      var w, p := Pends(used, cursor, polls[..|polls| - 1]), polls[|polls| - 1];
      if p.Nothing? then w
      else Left(With(w, p.root), p.root, cursor, p.pointer)
  }

  // Root i is the most recent ripe one.
  predicate LastRipe(roots: seq<Root>, i: nat, cursor: U64, pointer: U32) {
    i < |roots| && Ripe(roots[i], cursor, pointer)
    && forall j :: i < j < |roots| ==> !Ripe(roots[j], cursor, pointer)
  }

  // The index of a recording that starts clean holds exactly these roots in
  // its last used slots, and nothing publishable in front of them.
  ghost predicate Tracks(q: Queue, w: Pending, cursor: U64) {
    && WellFormed(q) && q.index == w.used && |w.roots| <= w.used
    && (w.used < QUEUE_SIZE ==>
          && (forall i :: 0 <= i < w.used - |w.roots| ==> q.entries[i].block == 0 || q.entries[i].block == 0xFFFF_FFFF)
          && (forall i :: 0 <= i < |w.roots| ==> q.entries[w.used - |w.roots| + i] == EntryOf(w.roots[i], cursor)))
  }

  // The index after a root was put in, before the pointer is looked at.
  ghost predicate Shows(p: Queue, all: Pending, cursor: U64) {
    && WellFormed(p) && p.index == all.used && 0 < |all.roots| <= all.used
    && (forall i :: 0 <= i < all.used - |all.roots| ==> p.entries[i].block == 0 || p.entries[i].block == 0xFFFF_FFFF)
    && (forall i :: 0 <= i < |all.roots| ==> p.entries[all.used - |all.roots| + i] == EntryOf(all.roots[i], cursor))
  }

  lemma PushShows(q: Queue, w: Pending, root: Root, cursor: U64)
    requires Tracks(q, w, cursor)
    ensures Shows(Pushed(q, EntryOf(root, cursor)), With(w, root), cursor)
    ensures With(w, root).roots[|With(w, root).roots| - 1] == root
  {
    hide EntryOf;
  }

  // The scan of the index finds the most recent ripe root.
  lemma {:induction false} ScanFindsLastRipe(p: Queue, all: Pending, cursor: U64, pointer: U32)
    requires Shows(p, all, cursor)
    ensures var i, first := LastPublishable(p.entries, p.index, pointer), all.used - |all.roots|;
      if i < 0 then !SomeRipe(all.roots, cursor, pointer)
      else i >= first && LastRipe(all.roots, i - first, cursor, pointer)
           && p.entries[i] == EntryOf(all.roots[i - first], cursor)
  {
    hide BlockOf;
    var i, first := LastPublishable(p.entries, p.index, pointer), all.used - |all.roots|;
    forall j | 0 <= j < |all.roots|
      ensures Ripe(all.roots[j], cursor, pointer) <==> Publishable(p.entries[first + j], pointer)
    {
      assert p.entries[first + j] == EntryOf(all.roots[j], cursor);
    }
    if i >= 0 {
      assert p.entries[first + (i - first)] == EntryOf(all.roots[i - first], cursor);
      forall j | i - first < j < |all.roots| ensures !Ripe(all.roots[j], cursor, pointer) {
        assert !Publishable(p.entries[first + j], pointer);
      }
    }
  }

  // What a call has to answer: its own root when that lies below the record
  // pointer; else the most recent ripe one; and nothing only when none is.
  ghost predicate IsAnswer(r: Report, all: Pending, root: Root, cursor: U64, pointer: U32) {
    if BlockOf(root, cursor) < pointer then r == Report(Position(root), root.length)
    else
      && (r.Silent? <==> !SomeRipe(all.roots, cursor, pointer))
      && forall i: nat :: LastRipe(all.roots, i, cursor, pointer) ==>
           r == Report(Position(all.roots[i]), all.roots[i].length)
  }

  function Left(all: Pending, root: Root, cursor: U64, pointer: U32): Pending {
    if BlockOf(root, cursor) < pointer || SomeRipe(all.roots, cursor, pointer) then Pending(0, []) else all
  }

  lemma CallAnswers(q: Queue, w: Pending, root: Root, cursor: U64, pointer: U32)
    requires Tracks(q, w, cursor)
    ensures IsAnswer(Answer(q, cursor, Ready(root, pointer)), With(w, root), root, cursor, pointer)
    ensures Tracks(Step(q, cursor, Ready(root, pointer)), Left(With(w, root), root, cursor, pointer), cursor)
  {
    hide BlockOf, Position, LastPublishable, Shows;
    var all := With(w, root);
    var p := Pushed(q, EntryOf(root, cursor));
    PushShows(q, w, root, cursor);
    ScanFindsLastRipe(p, all, cursor, pointer);
    ShownIsTracked(p, all, cursor);
    if BlockOf(root, cursor) >= pointer {
      forall i: nat | LastRipe(all.roots, i, cursor, pointer)
        ensures Answer(q, cursor, Ready(root, pointer)) == Report(Position(all.roots[i]), all.roots[i].length)
      {
        LastRipeIsUnique(all.roots, i, LastPublishable(p.entries, p.index, pointer) - (all.used - |all.roots|),
                         cursor, pointer);
      }
    }
  }

  lemma ShownIsTracked(p: Queue, all: Pending, cursor: U64)
    requires Shows(p, all, cursor)
    ensures Tracks(p, all, cursor)
  {
  }

  lemma LastRipeIsUnique(roots: seq<Root>, i: nat, j: int, cursor: U64, pointer: U32)
    requires LastRipe(roots, i, cursor, pointer) && (j >= 0 ==> LastRipe(roots, j, cursor, pointer))
    requires j < 0 ==> !SomeRipe(roots, cursor, pointer)
    ensures i == j
  {
  }

  lemma {:induction false} RunTracks(q: Queue, cursor: U64, polls: seq<Poll>)
    requires WellFormed(q) && Clean(RecordingStarted(q))
    ensures Tracks(After(RecordingStarted(q), cursor, polls), Pends(q.index, cursor, polls), cursor)
  {
    if polls != [] {
      var rest, p := polls[..|polls| - 1], polls[|polls| - 1];
      RunTracks(q, cursor, rest);
      hide Tracks, Polled, Left, With, EntryOf, ClearedEntries;
      if p.Ready? {
        CallAnswers(After(RecordingStarted(q), cursor, rest), Pends(q.index, cursor, rest), p.root, cursor,
                    p.pointer);
      }
    }
  }

  // Over every run of a recording that starts clean each call answers what it
  // has to.
  lemma {:induction false} AnswersExactly(q: Queue, cursor: U64, polls: seq<Poll>)
    requires WellFormed(q) && Clean(RecordingStarted(q)) && polls != []
    ensures var p, r := polls[|polls| - 1], LastAnswer(RecordingStarted(q), cursor, polls);
      match p
      case Nothing => r.Silent?
      case Ready(root, pointer) =>
        IsAnswer(r, With(Pends(q.index, cursor, polls[..|polls| - 1]), root), root, cursor, pointer)
  {
    var rest, p := polls[..|polls| - 1], polls[|polls| - 1];
    RunTracks(q, cursor, rest);
    hide Tracks, RecordingStarted, Reported, EntryOf, IsAnswer, Pends, With;
    if p.Ready? {
      CallAnswers(After(RecordingStarted(q), cursor, rest), Pends(q.index, cursor, rest), p.root, cursor,
                  p.pointer);
    }
  }

  function Roots(polls: seq<Poll>): seq<Root> {
    if polls == [] then []
    else
      var p := polls[|polls| - 1];
      Roots(polls[..|polls| - 1]) + if p.Ready? then [p.root] else []
  }

  ghost predicate AllSilent(start: Queue, cursor: U64, polls: seq<Poll>)
    requires WellFormed(start)
  {
    polls == []
    || (LastAnswer(start, cursor, polls).Silent? && AllSilent(start, cursor, polls[..|polls| - 1]))
  }

  // As long as nothing was reported and the index has room, all roots of the
  // recording wait; so no call is silent while any root received is ripe.
  lemma {:induction false} SilentOnlyWithNothingRipe(q: Queue, cursor: U64, polls: seq<Poll>)
    requires WellFormed(q) && Clean(RecordingStarted(q)) && AllSilent(RecordingStarted(q), cursor, polls)
    requires q.index + |Roots(polls)| <= 240
    ensures Pends(q.index, cursor, polls) == Pending(q.index + |Roots(polls)|, Roots(polls))
    ensures polls != [] && polls[|polls| - 1].Ready? ==> !SomeRipe(Roots(polls), cursor, polls[|polls| - 1].pointer)
  {
    if polls != [] {
      var rest, p := polls[..|polls| - 1], polls[|polls| - 1];
      hide LastAnswer, BlockOf, SomeRipe, RecordingStarted, Clean;
      SilentOnlyWithNothingRipe(q, cursor, rest);
      AnswersExactly(q, cursor, polls);
    }
  }
}
