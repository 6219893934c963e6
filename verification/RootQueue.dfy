// The pending-root queue of M23_GetRoot_UpdateNodes (M23_EventProcessor.c),
// which decides up to which byte a recording may be published in the directory.
module RootQueue {
  import opened Bytes
  import opened Bits
  import opened NodeFile

  const QUEUE_SIZE := 240
  // M23_Clear_Entries stops here.
  const CLEARED := 180
  const NODE_ENTRIES_STEP := 32768

  datatype Entry = Entry(position: U64, block: U32, len: U32)

  const NO_ENTRY := Entry(0, 0, 0)

  // The four words of one root in the hardware FIFO.
  datatype Root = Root(first: U32, second: U32, third: U32, length: U32)

  function Position(r: Root): (p: U64)
    ensures p < 0x1_0000_0000_0000
  {
    r.first + 0x1_0000_0000 * (r.second % 0x1_0000)
  }

  // Block of the cartridge the root lies in, for a recording at writeBlock.
  function BlockOf(r: Root, writeBlock: U64): U32 {
    (Position(r) / 512 + writeBlock) % 0x1_0000_0000
  }

  function EntryOf(r: Root, writeBlock: U64): Entry {
    Entry(Position(r), BlockOf(r, writeBlock), r.length)
  }

  // index may stand at the end until the next root wraps it.
  datatype Queue = Queue(entries: seq<Entry>, index: nat)

  predicate WellFormed(q: Queue) {
    |q.entries| == QUEUE_SIZE && q.index <= QUEUE_SIZE
  }

  function ClearedEntries(entries: seq<Entry>): (r: seq<Entry>)
    requires |entries| == QUEUE_SIZE
    ensures |r| == QUEUE_SIZE
    ensures forall i :: 0 <= i < QUEUE_SIZE ==> r[i] == if i < CLEARED then NO_ENTRY else entries[i]
  {
    seq(CLEARED, _ => NO_ENTRY) + entries[CLEARED..]
  }

  // M23_ClearRecordNodes at the start of a recording; index keeps its value.
  function RecordingStarted(q: Queue): Queue
    requires WellFormed(q)
  {
    q.(entries := ClearedEntries(q.entries))
  }

  function Pushed(q: Queue, e: Entry): (r: Queue)
    requires WellFormed(q)
    ensures WellFormed(r)
  {
    var at := if q.index == QUEUE_SIZE then 0 else q.index;
    Queue(q.entries[at := e], at + 1)
  }

  predicate Publishable(e: Entry, pointer: U32) {
    0 < e.block < pointer
  }

  // The last publishable entry among the first n.
  function LastPublishable(entries: seq<Entry>, n: nat, pointer: U32): (i: int)
    requires n <= |entries|
    ensures -1 <= i < n
    ensures i >= 0 ==> Publishable(entries[i], pointer)
    ensures forall j :: i < j < n ==> !Publishable(entries[j], pointer)
  {
    if n == 0 then -1
    else if Publishable(entries[n - 1], pointer) then n - 1
    else LastPublishable(entries, n - 1, pointer)
  }

  datatype Report = Silent | Report(offset: U64, len: U32)

  // What one call reports for a root, and the queue it leaves.
  function Reported(q: Queue, e: Entry, pointer: U32): Report
    requires WellFormed(q)
  {
    var p := Pushed(q, e);
    if e.block < pointer then Report(e.position, e.len)
    else
      var i := LastPublishable(p.entries, p.index, pointer);
      if i < 0 then Silent else Report(p.entries[i].position, p.entries[i].len)
  }

  function Polled(q: Queue, e: Entry, pointer: U32): (r: Queue)
    requires WellFormed(q)
    ensures WellFormed(r)
  {
    var p := Pushed(q, e);
    if Reported(q, e, pointer).Silent? then p else Queue(ClearedEntries(p.entries), 0)
  }

  /* ---------- one recording ---------- */

  // One call during a recording; pointer is the hardware's record pointer.
  datatype Poll = Nothing | Ready(root: Root, pointer: U32)

  function Step(q: Queue, writeBlock: U64, p: Poll): (r: Queue)
    requires WellFormed(q)
    ensures WellFormed(r)
  {
    if p.Nothing? then q else Polled(q, EntryOf(p.root, writeBlock), p.pointer)
  }

  function Answer(q: Queue, writeBlock: U64, p: Poll): Report
    requires WellFormed(q)
  {
    if p.Nothing? then Silent else Reported(q, EntryOf(p.root, writeBlock), p.pointer)
  }

  function After(q: Queue, writeBlock: U64, polls: seq<Poll>): (r: Queue)
    requires WellFormed(q)
    ensures WellFormed(r)
  {
    if polls == [] then q
    else Step(After(q, writeBlock, polls[..|polls| - 1]), writeBlock, polls[|polls| - 1])
  }

  // The report of the last call.
  function LastAnswer(q: Queue, writeBlock: U64, polls: seq<Poll>): Report
    requires WellFormed(q) && polls != []
  {
    Answer(After(q, writeBlock, polls[..|polls| - 1]), writeBlock, polls[|polls| - 1])
  }

  // A report names a root received by now whose block is below the pointer.
  ghost predicate Justified(r: Report, polls: seq<Poll>, writeBlock: U64) {
    r.Report? && polls != [] ==>
      exists j :: 0 <= j < |polls| && Names(r, polls[j], writeBlock, polls[|polls| - 1])
  }

  predicate Names(r: Report, p: Poll, writeBlock: U64, now: Poll)
    requires r.Report?
  {
    p.Ready? && now.Ready? && r == Report(Position(p.root), p.root.length)
    && BlockOf(p.root, writeBlock) < now.pointer
  }

  ghost predicate SafeRun(q: Queue, writeBlock: U64, polls: seq<Poll>)
    requires WellFormed(q)
  {
    polls != [] ==> Justified(LastAnswer(q, writeBlock, polls), polls, writeBlock)
  }

  // No entry that the clearing leaves behind can be published: the scan of
  // the next calls goes up to index, unless it stands at the very end.
  predicate Clean(q: Queue) {
    WellFormed(q)
    && (q.index < QUEUE_SIZE ==>
          forall i :: CLEARED <= i < q.index ==> q.entries[i].block == 0 || q.entries[i].block == 0xFFFF_FFFF)
  }

  // Every entry the scan reaches is one of the roots received, or can never
  // be published.
  ghost predicate Traced(q: Queue, polls: seq<Poll>, writeBlock: U64) {
    && WellFormed(q)
    && (q.index < QUEUE_SIZE ==>
          forall i :: 0 <= i < q.index ==> Received(q.entries[i], polls, writeBlock))
  }

  ghost predicate Received(e: Entry, polls: seq<Poll>, writeBlock: U64) {
    e.block == 0 || e.block == 0xFFFF_FFFF
    || exists j :: 0 <= j < |polls| && polls[j].Ready? && e == EntryOf(polls[j].root, writeBlock)
  }

  lemma ReceivedStays(e: Entry, polls: seq<Poll>, p: Poll, writeBlock: U64)
    requires Received(e, polls, writeBlock)
    ensures Received(e, polls + [p], writeBlock)
  {
    if j :| 0 <= j < |polls| && polls[j].Ready? && e == EntryOf(polls[j].root, writeBlock) {
      assert (polls + [p])[j] == polls[j];
    }
  }

  lemma PollKeepsTraced(q: Queue, polls: seq<Poll>, p: Poll, writeBlock: U64)
    requires Traced(q, polls, writeBlock)
    ensures Traced(Step(q, writeBlock, p), polls + [p], writeBlock)
    ensures Justified(Answer(q, writeBlock, p), polls + [p], writeBlock)
  {
    var all := polls + [p];
    if p.Nothing? {
      forall i | 0 <= i < q.index && q.index < QUEUE_SIZE ensures Received(q.entries[i], all, writeBlock) {
        ReceivedStays(q.entries[i], polls, p, writeBlock);
      }
    } else {
      var e := EntryOf(p.root, writeBlock);
      var pushed := Pushed(q, e);
      assert all[|polls|] == p;
      forall i | 0 <= i < pushed.index ensures Received(pushed.entries[i], all, writeBlock) {
        if i < pushed.index - 1 {
          ReceivedStays(q.entries[i], polls, p, writeBlock);
        }
      }
      var r := Reported(q, e, p.pointer);
      if e.block < p.pointer {
        assert Names(r, all[|polls|], writeBlock, p);
      } else if r.Report? {
        var i := LastPublishable(pushed.entries, pushed.index, p.pointer);
        var j :| 0 <= j < |all| && all[j].Ready? && pushed.entries[i] == EntryOf(all[j].root, writeBlock);
        assert Names(r, all[j], writeBlock, p);
      }
    }
  }

  lemma {:induction false} RunKeepsTraced(q: Queue, writeBlock: U64, polls: seq<Poll>)
    requires WellFormed(q) && Clean(RecordingStarted(q))
    ensures Traced(After(RecordingStarted(q), writeBlock, polls), polls, writeBlock)
  {
    if polls != [] {
      var rest := polls[..|polls| - 1];
      RunKeepsTraced(q, writeBlock, rest);
      PollKeepsTraced(After(RecordingStarted(q), writeBlock, rest), rest, polls[|polls| - 1], writeBlock);
      assert rest + [polls[|polls| - 1]] == polls;
    }
  }

  // Publication is safe in every run of a recording exactly when the queue
  // it starts with is clean.
  lemma SafeIffClean(q: Queue, writeBlock: U64)
    requires WellFormed(q)
    ensures Clean(RecordingStarted(q))
        <==> forall polls: seq<Poll> :: SafeRun(RecordingStarted(q), writeBlock, polls)
  {
    var start := RecordingStarted(q);
    if Clean(start) {
      forall polls: seq<Poll> ensures SafeRun(start, writeBlock, polls) {
        CleanRunIsSafe(q, writeBlock, polls);
      }
    } else {
      var polls := StaleRun(start, writeBlock);
      assert !SafeRun(start, writeBlock, polls);
    }
  }

  lemma CleanRunIsSafe(q: Queue, writeBlock: U64, polls: seq<Poll>)
    requires WellFormed(q) && Clean(RecordingStarted(q))
    ensures SafeRun(RecordingStarted(q), writeBlock, polls)
  {
    if polls != [] {
      var rest := polls[..|polls| - 1];
      RunKeepsTraced(q, writeBlock, rest);
      PollKeepsTraced(After(RecordingStarted(q), writeBlock, rest), rest, polls[|polls| - 1], writeBlock);
      assert rest + [polls[|polls| - 1]] == polls;
    }
  }

  // A root in the highest block there is: it cannot be published itself.
  function LastBlockRoot(writeBlock: U64, length: U32): (r: Root)
    ensures BlockOf(r, writeBlock) == 0xFFFF_FFFF && r.length == length
  {
    var distance := (0xFFFF_FFFF - writeBlock) % 0x1_0000_0000;
    var position := 512 * distance;
    Root(position % 0x1_0000_0000, position / 0x1_0000_0000, 0, length)
  }

  // One root is enough to publish what an earlier recording left behind.
  lemma StaleRun(start: Queue, writeBlock: U64) returns (polls: seq<Poll>)
    requires WellFormed(start) && !Clean(start)
    ensures !SafeRun(start, writeBlock, polls)
  {
    var i :| CLEARED <= i < start.index && start.entries[i].block != 0 && start.entries[i].block != 0xFFFF_FFFF;
    assert Publishable(start.entries[i], 0xFFFF_FFFF);
    var k := LastPublishable(start.entries, start.index, 0xFFFF_FFFF);
    var root := LastBlockRoot(writeBlock, if start.entries[k].len == 0 then 1 else 0);
    var e := EntryOf(root, writeBlock);
    var pushed := Pushed(start, e);
    var last := LastPublishable(pushed.entries, pushed.index, 0xFFFF_FFFF);
    assert pushed.entries[k] == start.entries[k] && pushed.entries[start.index] == e;
    assert pushed.entries[last] == start.entries[last];
    polls := [Ready(root, 0xFFFF_FFFF)];
    assert polls[..0] == [];
    assert LastAnswer(start, writeBlock, polls) == Report(start.entries[k].position, start.entries[k].len);
  }

  // What a recording leaves behind makes the next one start clean unless
  // more than 180 of its roots were still waiting.
  lemma ShortQueueIsClean(q: Queue)
    requires WellFormed(q) && (q.index <= 180 || q.index == 240)
    ensures Clean(RecordingStarted(q))
  {
  }

  // Roots at successive blocks of a recording, all read before the record
  // pointer has moved on from the write cursor.
  function Waiting(n: nat, cursor: U32): (polls: seq<Poll>)
    requires n <= QUEUE_SIZE
    ensures |polls| == n
  {
    if n == 0 then [] else Waiting(n - 1, cursor) + [Ready(Root(512 * (n - 1), 0, 0, 512), cursor)]
  }

  lemma WaitingEntry(k: nat, cursor: U32)
    requires k < QUEUE_SIZE && cursor + k < 0x1_0000_0000
    ensures EntryOf(Root(512 * k, 0, 0, 512), cursor) == Entry(512 * k, cursor + k, 512)
  {
    var root := Root(512 * k, 0, 0, 512);
    assert Position(root) == 512 * k;
    assert Position(root) / 512 == k;
  }

  // The roots of n blocks from the write cursor on wait in the index.
  ghost predicate PiledUp(q: Queue, cursor: U32, n: nat)
    requires n <= QUEUE_SIZE && cursor + n <= 0x1_0000_0000
  {
    WellFormed(q) && q.index == n && forall i :: 0 <= i < n ==> q.entries[i] == Entry(512 * i, cursor + i, 512)
  }

  lemma WaitingRootStays(q: Queue, cursor: U32, n: nat)
    requires n < QUEUE_SIZE && 0 < cursor && cursor + n < 0x1_0000_0000 && PiledUp(q, cursor, n)
    ensures PiledUp(Polled(q, Entry(512 * n, cursor + n, 512), cursor), cursor, n + 1)
  {
    assert forall i :: 0 <= i < n ==> !Publishable(q.entries[i], cursor);
  }

  // Such a queue is reachable: while the record pointer stands still, no root
  // is published.
  lemma {:induction false} WaitingRootsPileUp(q: Queue, cursor: U32, n: nat)
    requires WellFormed(q) && q.index == 0 && n <= QUEUE_SIZE && 0 < cursor && cursor + n <= 0x1_0000_0000
    ensures PiledUp(After(q, cursor, Waiting(n, cursor)), cursor, n)
  {
    if n > 0 {
      hide *;
      WaitingRootsPileUp(q, cursor, n - 1);
      OneMoreWaits(q, cursor, n);
      WaitingEntry(n - 1, cursor);
      WaitingRootStays(After(q, cursor, Waiting(n - 1, cursor)), cursor, n - 1);
    }
  }

  lemma OneMoreWaits(q: Queue, cursor: U32, n: nat)
    requires WellFormed(q) && 0 < n <= QUEUE_SIZE
    ensures After(q, cursor, Waiting(n, cursor))
         == Polled(After(q, cursor, Waiting(n - 1, cursor)), EntryOf(Root(512 * (n - 1), 0, 0, 512), cursor), cursor)
  {
    hide EntryOf, Polled;
    assert Waiting(n, cursor)[..n - 1] == Waiting(n - 1, cursor);
  }

  // The next recording, at a later write cursor, can then publish bytes that
  // only the one before it wrote: its first root, at its first block, comes
  // while the record pointer is still there, and the last root of the earlier
  // recording is reported instead.
  lemma {:induction false} StaleRootIsPublished(earlier: U32, cursor: U32, n: nat)
    requires 180 < n < 240 && 0 < earlier && earlier + n <= cursor
    ensures var q := After(Queue(seq(QUEUE_SIZE, _ => NO_ENTRY), 0), earlier, Waiting(n, earlier));
      && LastAnswer(RecordingStarted(q), cursor, Waiting(1, cursor)) == Report(512 * (n - 1), 512)
      && !SafeRun(RecordingStarted(q), cursor, Waiting(1, cursor))
  {
    hide After, Waiting, LastAnswer;
    var empty := Queue(seq(QUEUE_SIZE, _ => NO_ENTRY), 0);
    WaitingRootsPileUp(empty, earlier, n);
    var start := RecordingStarted(After(empty, earlier, Waiting(n, earlier)));
    assert start.entries[n - 1] == Entry(512 * (n - 1), earlier + n - 1, 512);
    EarlierRootIsReported(start, cursor, start.entries[n - 1]);
    FirstRootIsTooEarly(start, cursor);
  }

  // In front of a root that must wait stands one that is publishable.
  lemma {:induction false} EarlierRootIsReported(q: Queue, cursor: U32, last: Entry)
    requires WellFormed(q) && 0 < q.index < QUEUE_SIZE && q.entries[q.index - 1] == last && Publishable(last, cursor)
    ensures LastAnswer(q, cursor, Waiting(1, cursor)) == Report(last.position, last.len)
  {
    hide LastPublishable, EntryOf;
    FirstWaiting(cursor);
    WaitingEntry(0, cursor);
    var entries := Pushed(q, Entry(0, cursor, 512)).entries;
    assert !Publishable(entries[q.index], cursor) && entries[q.index - 1] == last;
    assert LastPublishable(entries, q.index + 1, cursor) == q.index - 1;
  }

  lemma {:induction false} FirstWaiting(cursor: U32)
    ensures Waiting(1, cursor) == [Ready(Root(0, 0, 0, 512), cursor)] && Waiting(1, cursor)[..0] == []
  {
    assert Waiting(0, cursor) == [];
  }

  // The root's own block is not below the pointer.
  lemma {:induction false} FirstRootIsTooEarly(q: Queue, cursor: U32)
    requires WellFormed(q) && LastAnswer(q, cursor, Waiting(1, cursor)).Report?
    ensures !SafeRun(q, cursor, Waiting(1, cursor))
  {
    hide LastAnswer, Waiting, BlockOf, Position;
    FirstWaiting(cursor);
    FirstBlock(cursor);
  }

  lemma FirstBlock(cursor: U32)
    ensures BlockOf(Root(0, 0, 0, 512), cursor) == cursor
  {
    WaitingEntry(0, cursor);
  }

  /* ---------- reported offsets grow ---------- */

  ghost predicate Increasing(polls: seq<Poll>) {
    forall i, j :: 0 <= i < j < |polls| && polls[i].Ready? && polls[j].Ready? ==>
      Position(polls[i].root) < Position(polls[j].root)
  }

  // The offsets reported during a run, as the control loop sees them: it
  // takes offset 0 for no report.
  function Offsets(q: Queue, writeBlock: U64, polls: seq<Poll>): seq<U64>
    requires WellFormed(q)
  {
    if polls == [] then []
    else
      var rest := polls[..|polls| - 1];
      var r := LastAnswer(q, writeBlock, polls);
      if r.Report? && r.offset > 0 then Offsets(q, writeBlock, rest) + [r.offset] else Offsets(q, writeBlock, rest)
  }

  ghost predicate StrictlyIncreasing(s: seq<U64>) {
    forall i, j :: 0 <= i < j < |s| ==> s[i] < s[j]
  }

  // Entries the scan reaches lie above everything reported and not above the
  // last root received; entries of block 0 are never published.
  ghost predicate Fresh(q: Queue, polls: seq<Poll>, reported: seq<U64>) {
    && WellFormed(q)
    && (q.index < QUEUE_SIZE ==> forall i :: 0 <= i < q.index ==> Ahead(q.entries[i], polls, reported))
  }

  ghost predicate Ahead(e: Entry, polls: seq<Poll>, reported: seq<U64>) {
    e.block == 0 || e.block == 0xFFFF_FFFF
    || (NotAbove(e.position, polls) && forall i :: 0 <= i < |reported| ==> reported[i] < e.position)
  }

  // Every later root of an increasing run has a larger position.
  ghost predicate NotAbove(p: U64, polls: seq<Poll>) {
    exists j :: 0 <= j < |polls| && polls[j].Ready? && p <= Position(polls[j].root)
  }

  ghost predicate AllNotAbove(reported: seq<U64>, polls: seq<Poll>) {
    forall i :: 0 <= i < |reported| ==> NotAbove(reported[i], polls)
  }

  lemma NotAboveStays(p: U64, polls: seq<Poll>, more: Poll)
    requires NotAbove(p, polls)
    ensures NotAbove(p, polls + [more])
  {
    var j :| 0 <= j < |polls| && polls[j].Ready? && p <= Position(polls[j].root);
    assert (polls + [more])[j] == polls[j];
  }

  lemma LaterRootIsAbove(p: U64, polls: seq<Poll>, more: Poll)
    requires NotAbove(p, polls) && more.Ready? && Increasing(polls + [more])
    ensures p < Position(more.root)
  {
    var j :| 0 <= j < |polls| && polls[j].Ready? && p <= Position(polls[j].root);
    assert (polls + [more])[j] == polls[j] && (polls + [more])[|polls|] == more;
  }

  lemma PushKeepsFresh(q: Queue, polls: seq<Poll>, reported: seq<U64>, p: Poll, writeBlock: U64)
    requires Fresh(q, polls, reported) && AllNotAbove(reported, polls)
    requires p.Ready? && Increasing(polls + [p])
    ensures var pushed := Pushed(q, EntryOf(p.root, writeBlock));
      forall i :: 0 <= i < pushed.index ==> Ahead(pushed.entries[i], polls + [p], reported)
    ensures Ahead(EntryOf(p.root, writeBlock), polls + [p], reported)
    ensures forall i :: 0 <= i < |reported| ==> reported[i] < Position(p.root)
    ensures NotAbove(Position(p.root), polls + [p])
  {
    var e := EntryOf(p.root, writeBlock);
    var pushed := Pushed(q, e);
    assert (polls + [p])[|polls|] == p;
    assert NotAbove(e.position, polls + [p]);
    forall i | 0 <= i < |reported| ensures reported[i] < Position(p.root) {
      LaterRootIsAbove(reported[i], polls, p);
    }
    forall i | 0 <= i < pushed.index ensures Ahead(pushed.entries[i], polls + [p], reported) {
      if i < pushed.index - 1 && q.entries[i].block != 0 && q.entries[i].block != 0xFFFF_FFFF {
        NotAboveStays(q.entries[i].position, polls, p);
      }
    }
  }

  // In a recording that starts clean and empty of waiting roots, and whose
  // roots come at increasing positions, the offsets reported strictly
  // increase, through every wrap and every clearing.
  lemma {:induction false} ReportedOffsetsIncrease(q: Queue, writeBlock: U64, polls: seq<Poll>)
    requires WellFormed(q) && Clean(RecordingStarted(q)) && Increasing(polls)
    ensures Fresh(After(RecordingStarted(q), writeBlock, polls), polls, Offsets(RecordingStarted(q), writeBlock, polls))
    ensures AllNotAbove(Offsets(RecordingStarted(q), writeBlock, polls), polls)
    ensures StrictlyIncreasing(Offsets(RecordingStarted(q), writeBlock, polls))
  {
    var start := RecordingStarted(q);
    if polls != [] {
      var rest, p := polls[..|polls| - 1], polls[|polls| - 1];
      assert rest + [p] == polls;
      forall i, j | 0 <= i < j < |rest| && rest[i].Ready? && rest[j].Ready?
        ensures Position(rest[i].root) < Position(rest[j].root)
      {
        assert rest[i] == polls[i] && rest[j] == polls[j];
      }
      ReportedOffsetsIncrease(q, writeBlock, rest);
      NextReportIsLarger(After(start, writeBlock, rest), rest, Offsets(start, writeBlock, rest), p, writeBlock);
    }
  }

  lemma NextReportIsLarger(q: Queue, polls: seq<Poll>, reported: seq<U64>, p: Poll, writeBlock: U64)
    requires Fresh(q, polls, reported) && AllNotAbove(reported, polls) && StrictlyIncreasing(reported)
    requires Increasing(polls + [p])
    ensures var r := Answer(q, writeBlock, p);
      var now := if r.Report? && r.offset > 0 then reported + [r.offset] else reported;
      Fresh(Step(q, writeBlock, p), polls + [p], now) && AllNotAbove(now, polls + [p]) && StrictlyIncreasing(now)
  {
    hide BlockOf, Position, LastPublishable, Increasing, NotAbove;
    var r := Answer(q, writeBlock, p);
    forall i | 0 <= i < |reported| ensures NotAbove(reported[i], polls + [p]) {
      NotAboveStays(reported[i], polls, p);
    }
    if p.Nothing? {
      forall i | 0 <= i < q.index && q.index < QUEUE_SIZE ensures Ahead(q.entries[i], polls + [p], reported) {
        if q.entries[i].block != 0 && q.entries[i].block != 0xFFFF_FFFF {
          NotAboveStays(q.entries[i].position, polls, p);
        }
      }
    } else {
      PushKeepsFresh(q, polls, reported, p, writeBlock);
      if r.Report? {
        var pushed := Pushed(q, EntryOf(p.root, writeBlock));
        var i := LastPublishable(pushed.entries, pushed.index, p.pointer);
        assert NotAbove(r.offset, polls + [p]);
        assert forall i :: 0 <= i < |reported| ==> reported[i] < r.offset;
      }
    }
  }

  /* ---------- node entries ---------- */

  // The node a root leaves in a slot.  The day half of the time is or-ed onto
  // what the slot held before.
  function RootNode(prior: Node, r: Root, writeBlock: U64): Node {
    MswBelow(prior.absTimeMsw, r.third / 0x1_0000);
    Node(prior.eventInfo, r.second / 0x1_0000 + 0x1_0000 * (r.third % 0x1_0000),
         Or(prior.absTimeMsw, r.third / 0x1_0000), BlockOf(r, writeBlock))
  }

  lemma {:induction false} MswBelow(a: U32, b: U32)
    ensures Or(a, b) < 0x1_0000_0000
  {
    assert Power2(8) == 256;
    assert Power2(16) == 65536;
    assert Power2(24) == 0x100_0000;
    assert Power2(32) == 0x1_0000_0000;
    OrBelow(a, b, 32);
  }

  // A node carries the time it was received with exactly when its slot holds
  // no other day bits from an earlier recording.
  lemma NodeTimeIsReceived(prior: Node, r: Root, writeBlock: U64)
    ensures RootNode(prior, r, writeBlock).absTimeMsw == r.third / 0x1_0000
        <==> HasBitsOf(r.third / 0x1_0000, prior.absTimeMsw)
  {
    OrAbsorbs(prior.absTimeMsw, r.third / 0x1_0000);
  }

  // A recording on day 2 in the slots of one on day 1 is indexed as day 3.
  lemma SlotReuseShiftsTheDay(prior: Node, r: Root, writeBlock: U64)
    requires prior.absTimeMsw == 0x1 && r.third / 0x1_0000 == 0x2
    ensures RootNode(prior, r, writeBlock).absTimeMsw == 0x3
  {
    assert Or(1, 2) == 2 * Or(0, 1) + 1;
  }

  class NodeIndex {
    const queue: array<Entry>
    var index: nat
    var nodeEntries: array<Node>
    var currentNode: nat
    var nodeCount: nat

    ghost predicate Valid()
      reads this
    {
      queue.Length == QUEUE_SIZE && index <= QUEUE_SIZE
      && nodeEntries.Length == nodeCount && currentNode < nodeCount
    }

    ghost function Waiting(): Queue
      reads this, queue
    {
      Queue(queue[..], index)
    }

    ghost function Nodes(): seq<Node>
      reads this, nodeEntries
      requires Valid()
    {
      nodeEntries[..currentNode]
    }

    // M23_InitializeNodes: memory as malloc returns it, 180 entries cleared.
    constructor ()
      ensures Valid() && fresh(queue) && fresh(nodeEntries)
      ensures index == currentNode == 0
    {
      queue := new Entry[QUEUE_SIZE];
      nodeEntries := new Node[NODE_ENTRIES_STEP];
      nodeCount := NODE_ENTRIES_STEP;
      index, currentNode := 0, 0;
      new;
      ClearEntries();
    }

    method ClearEntries()
      requires queue.Length == QUEUE_SIZE
      modifies queue
      ensures queue[..] == ClearedEntries(old(queue[..]))
    {
      for i := 0 to CLEARED
        invariant forall k :: 0 <= k < QUEUE_SIZE ==> queue[k] == if k < i then NO_ENTRY else old(queue[k])
      {
        queue[i] := NO_ENTRY;
      }
    }

    method ClearRecordNodes()
      requires Valid()
      modifies this`currentNode, queue
      ensures Valid() && Waiting() == RecordingStarted(old(Waiting())) && Nodes() == []
    {
      ClearEntries();
      currentNode := 0;
    }

    // realloc keeps what was there and leaves the rest undefined.
    method AddMoreNodeEntries()
      requires nodeEntries.Length == nodeCount
      modifies this`nodeEntries, this`nodeCount
      ensures nodeEntries.Length == nodeCount == old(nodeCount) + NODE_ENTRIES_STEP
      ensures fresh(nodeEntries) && nodeEntries[..old(nodeCount)] == old(nodeEntries[..])
    {
      var larger := new Node[nodeCount + NODE_ENTRIES_STEP];
      forall i | 0 <= i < nodeCount {
        larger[i] := nodeEntries[i];
      }
      nodeEntries := larger;
      nodeCount := nodeCount + NODE_ENTRIES_STEP;
    }

    // One call of M23_GetRoot_UpdateNodes; block is CurrentWriteBlock.
    method GetRootUpdateNodes(poll: Poll, block: U64) returns (offset: U64, pktLen: int)
      requires Valid()
      modifies this, queue, nodeEntries
      ensures Valid() && Waiting() == Step(old(Waiting()), block, poll)
      ensures var r := Answer(old(Waiting()), block, poll);
        if r.Report? then offset == r.offset && pktLen == Int32(r.len) else offset == 0 && pktLen == 0
      ensures Nodes() == if poll.Nothing? then old(Nodes())
                         else old(Nodes()) + [RootNode(old(nodeEntries[currentNode]), poll.root, block)]
      ensures nodeEntries == old(nodeEntries) || fresh(nodeEntries)
      ensures old(nodeCount) <= nodeCount
      ensures forall i :: old(currentNode) < i < old(nodeCount) ==> nodeEntries[i] == old(nodeEntries[i])
    {
      offset, pktLen := 0, 0;
      if poll.Nothing? {
        return;
      }
      var root := poll.root;
      nodeEntries[currentNode] := RootNode(nodeEntries[currentNode], root, block);
      offset, pktLen := Publish(EntryOf(root, block), poll.pointer);
      currentNode := currentNode + 1;
      if currentNode >= nodeCount {
        AddMoreNodeEntries();
      }
    }

    method Publish(e: Entry, pointer: U32) returns (offset: U64, pktLen: int)
      requires queue.Length == QUEUE_SIZE && index <= QUEUE_SIZE
      modifies this`index, queue
      ensures index <= QUEUE_SIZE && Waiting() == Polled(old(Waiting()), e, pointer)
      ensures var r := Reported(old(Waiting()), e, pointer);
        if r.Report? then offset == r.offset && pktLen == Int32(r.len) else offset == 0 && pktLen == 0
    {
      offset, pktLen := 0, 0;
      if index == QUEUE_SIZE {
        index := 0;
      }
      queue[index] := e;
      index := index + 1;
      assert Waiting() == Pushed(old(Waiting()), e);
      if e.block < pointer {
        offset, pktLen := e.position, Int32(e.len);
        ClearEntries();
        index := 0;
        return;
      }
      var clear := false;
      ghost var last := -1;
      for i := 0 to index
        invariant last == LastPublishable(queue[..], i, pointer) && clear == (last >= 0)
        invariant if clear then offset == queue[last].position && pktLen == Int32(queue[last].len)
                  else offset == 0 && pktLen == 0
      {
        if queue[i].block < pointer && queue[i].block != 0 {
          offset, pktLen := queue[i].position, Int32(queue[i].len);
          clear := true;
          last := i;
        }
      }
      if clear {
        ClearEntries();
        index := 0;
      }
    }
  }
}
