// One turn of the control loop of M23_Control.c during a recording: the stops
// for a fault and for a full cartridge, the end of playback, and the
// publication that is due every other turn.  All four look at the recorder
// status read at the start of the turn.
module ControlLoop {
  import opened Bytes
  import opened Directory
  import opened Volume
  import Runs
  import opened DiskGuard
  import opened Recorder

  datatype Due = NotDue | Due(publication: Publication)

  // What one turn finds: the fault bit, the record pointer, the last roots and
  // the node lists of both stops, the play-complete bit and the publication.
  // A first stop that waited for its root in vain leaves the root's flag set,
  // so that the second may find the root.
  datatype Turn = Turn(fault: bool, total: U32, pointer: U32, root: LastRoot, nodes: NodeDump, rootAgain: LastRoot,
                       nodesAgain: NodeDump, playComplete: bool, due: Due)

  // Out of bounds: the turn writes in front of an empty directory block.
  datatype Outcome = Fine(rec: Rec) | OutOfBounds

  function FirstStop(r: Rec, t: Turn): Rec
    requires Stoppable(r, t)
  {
    if t.fault || Full(t.total, t.pointer) then Stopped(r, t.root, t.nodes) else r
  }

  function SecondStop(r: Rec, t: Turn): Outcome
    requires |r.vol.table| == MAX_STANAG_BLOCKS && r.vol.fileNumber < MAX_NUM_FILES
    requires |r.vol.nodeList| == MAX_NUM_FILES
  {
    if !t.fault || !Full(t.total, t.pointer) then Fine(r)
    else if Publishes(t.rootAgain) && !CanUpdate(r.vol) then OutOfBounds
    else Fine(Stopped(r, t.rootAgain, t.nodesAgain))
  }

  predicate Stoppable(r: Rec, t: Turn) {
    |r.vol.table| == MAX_STANAG_BLOCKS && r.vol.fileNumber < MAX_NUM_FILES - 1 && |r.vol.nodeList| == MAX_NUM_FILES
    && CanUpdate(r.vol)
  }

  function PlaybackEnded(before: Rec, r: Rec, t: Turn): Rec {
    if before.status == RecordAndPlay && t.playComplete then PlaybackStopped(r) else r
  }

  function PublishesDue(r: Rec, t: Turn): Outcome {
    if t.due.NotDue? || !Effective(t.due.publication) then Fine(r)
    else if CanUpdate(r.vol) then Fine(r.(vol := Publishing(r.vol, t.due.publication)))
    else OutOfBounds
  }

  // A publication that changes anything.
  predicate Effective(p: Publication) {
    p.present && (p.Indexed? ==> p.offset > 0)
  }

  function PublishedSize(p: Publication): U64 {
    match p
    case Indexed(offset, pktLen, _, _, _) => (offset + pktLen) % TWO64
    case Counted(blocks, _, _, _) => blocks * 512
  }

  lemma FirstStopShape(r: Rec, t: Turn)
    requires Stoppable(r, t)
    ensures var n := FirstStop(r, t).vol;
      |n.table| == MAX_STANAG_BLOCKS && n.fileNumber < MAX_NUM_FILES && |n.nodeList| == MAX_NUM_FILES
  {
    RootPublishedShape(r.vol, t.root);
    hide RootPublished, BlankedTable, NodeSectors;
  }

  function BothStops(r: Rec, t: Turn): Outcome
    requires Stoppable(r, t)
  {
    FirstStopShape(r, t);
    SecondStop(FirstStop(r, t), t)
  }

  // A turn that starts while recording.
  function Turned(r: Rec, t: Turn): Outcome
    requires Stoppable(r, t)
  {
    match BothStops(r, t)
    case OutOfBounds => OutOfBounds
    case Fine(stopped) => PublishesDue(PlaybackEnded(r, stopped, t), t)
  }

  // Each part of the turn could be issued on its own.
  ghost predicate Ready(r: Rec, t: Turn) {
    && Good(r) && InRecord(r.status)
    && Issued(r, Stop(t.root, t.nodes))
    && (t.due.Due? ==> Issued(r, Update(t.due.publication)))
    && (t.due.Due? && Effective(t.due.publication) ==> PublishedSize(t.due.publication) != 0)
  }

  lemma ReadyIsStoppable(r: Rec, t: Turn)
    requires Ready(r, t)
    ensures Stoppable(r, t)
  {
    GoodShape(r);
  }

  lemma EndOfPlaybackKeepsGood(before: Rec, r: Rec, t: Turn)
    ensures Good(PlaybackEnded(before, r, t)) <==> Good(r)
  {
    hide Runs.Sound;
  }

  lemma EndOfPlaybackKeepsVol(before: Rec, r: Rec, n: Rec, t: Turn)
    requires n == r.(vol := n.vol)
    ensures PlaybackEnded(before, n, t) == PlaybackEnded(before, r, t).(vol := n.vol)
    ensures PlaybackEnded(before, r, t).vol == r.vol
  {
  }

  // Publishing on a closed volume leaves a byte count behind that no open
  // file accounts for.
  lemma PublicationNeedsAnOpenFile(r: Rec, p: Publication)
    requires Effective(p) && PublishedSize(p) != 0 && CanUpdate(r.vol) && !InRecord(r.status)
    ensures !Good(r.(vol := Publishing(r.vol, p)))
  {
    PublishedBytes(r.vol, p);
    hide Publishing, Good;
    ClosedHasNoBytes(r.(vol := Publishing(r.vol, p)));
  }

  lemma ClosedHasNoBytes(r: Rec)
    ensures Good(r) && !InRecord(r.status) ==> r.vol.totalBytes == 0
  {
    hide Holds;
  }

  lemma PublishedBytes(v: Vol, p: Publication)
    requires Effective(p) && CanUpdate(v)
    ensures Publishing(v, p).totalBytes == PublishedSize(p)
  {
    hide UpdatedTable, StoredCurrent;
  }

  lemma OneStopKeepsGood(r: Rec, t: Turn)
    requires Ready(r, t)
    ensures Stoppable(r, t) && Good(FirstStop(r, t))
    ensures t.fault || Full(t.total, t.pointer) ==> !InRecord(FirstStop(r, t).status)
  {
    ReadyIsStoppable(r, t);
    CommandKeepsGood(r, Stop(t.root, t.nodes));
    hide Good, Issued, Closed, RootPublished;
  }

  // No publication repairs a wrong file number.
  lemma PublicationKeepsCount(v: Vol, p: Publication)
    requires CanUpdate(v)
    ensures CountAgrees(Publishing(v, p)) <==> CountAgrees(v)
  {
    PublishingKeepsCount(v, p);
    PublishedCounts(v, p);
    CountsGiveLength(v.table, Publishing(v, p).table, 0);
    hide Publishing, CanUpdate;
  }

  lemma PublishedCounts(v: Vol, p: Publication)
    requires CanUpdate(v)
    ensures var t := Publishing(v, p).table;
      |t| == MAX_STANAG_BLOCKS
      && forall i :: 0 <= i < MAX_STANAG_BLOCKS ==> t[i].numberOfFileEntries == v.table[i].numberOfFileEntries
  {
    hide StoredCurrent;
  }

  // After two stops in one turn the file number is one too large.
  lemma SecondStopMiscounts(r: Rec, t: Turn)
    requires Good(r) && !InRecord(r.status)
    requires |r.vol.table| == MAX_STANAG_BLOCKS && r.vol.fileNumber < MAX_NUM_FILES && |r.vol.nodeList| == MAX_NUM_FILES
    requires t.fault && Full(t.total, t.pointer)
    ensures var o := SecondStop(r, t); o.Fine? ==> !CountAgrees(o.rec.vol)
  {
    GoodShape(r);
    assert Coupled(r) && !r.vol.isOpen;
    hide Good, Stopped, Runs.Files, CanUpdate;
    if SecondStop(r, t).Fine? {
      StoppedCount(r, t.rootAgain, t.nodesAgain);
    }
  }

  lemma MiscountedTurnIsNotGood(before: Rec, r: Rec, t: Turn)
    requires !CountAgrees(r.vol)
    ensures var o := PublishesDue(PlaybackEnded(before, r, t), t); o.Fine? ==> !Good(o.rec)
  {
    var c := PlaybackEnded(before, r, t);
    var o := PublishesDue(c, t);
    hide Runs.Files, Publishing, CanUpdate;
    if o.Fine? {
      if o.rec != c {
        PublicationKeepsCount(c.vol, t.due.publication);
      }
      GoodCounts(o.rec);
      hide Good;
    }
  }

  // A turn of the control loop keeps the recorder and the directory in step
  // exactly when it does not stop twice, for a fault and for a full cartridge,
  // and does not publish after it has stopped.
  lemma TurnKeepsGood(r: Rec, t: Turn)
    requires Ready(r, t)
    ensures Stoppable(r, t)
    ensures var full, o := Full(t.total, t.pointer), Turned(r, t);
      o.Fine? && Good(o.rec)
      <==> !(t.fault && full) && !((t.fault || full) && t.due.Due? && Effective(t.due.publication))
  {
    OneStopKeepsGood(r, t);
    FirstStopShape(r, t);
    var a := FirstStop(r, t);
    if t.fault && Full(t.total, t.pointer) {
      SecondStopMiscounts(a, t);
      hide Good, SecondStop, FirstStop, Ready, PublishesDue, CountAgrees;
      if SecondStop(a, t).Fine? {
        MiscountedTurnIsNotGood(r, SecondStop(a, t).rec, t);
      }
    } else if t.fault || Full(t.total, t.pointer) {
      hide Good, FirstStop, Ready, PublishesDue;
      StoppedTurn(r, a, t);
    } else {
      hide Good, Ready, PublishesDue;
      RunningTurn(r, t);
    }
  }

  lemma StoppedTurn(before: Rec, a: Rec, t: Turn)
    requires Good(a) && !InRecord(a.status)
    requires t.due.Due? && Effective(t.due.publication) ==> PublishedSize(t.due.publication) != 0
    ensures var o := PublishesDue(PlaybackEnded(before, a, t), t);
      o.Fine? && Good(o.rec) <==> !(t.due.Due? && Effective(t.due.publication))
  {
    var c := PlaybackEnded(before, a, t);
    EndOfPlaybackKeepsGood(before, a, t);
    hide Good, Publishing, CanUpdate;
    if t.due.Due? && Effective(t.due.publication) && CanUpdate(c.vol) {
      PublicationNeedsAnOpenFile(c, t.due.publication);
    }
  }

  lemma RecordingIsOpen(r: Rec)
    requires Good(r) && InRecord(r.status)
    ensures r.vol.isOpen && CanUpdate(r.vol)
  {
    assert Coupled(r);
    GoodShape(r);
    hide Good;
  }

  lemma UpdateKeepsGood(r: Rec, p: Publication, t: Turn)
    requires Good(r) && Issued(r, Update(p)) && CanUpdate(r.vol)
    ensures Good(PlaybackEnded(r, r, t).(vol := Publishing(r.vol, p)))
  {
    GoodShape(r);
    hide Good, Issued, Publishing, CanUpdate;
    CommandKeepsGood(r, Update(p));
    var n := r.(vol := Publishing(r.vol, p));
    assert n == After(r, Update(p)) by {
      hide Good, Issued;
    }
    hide After;
    EndOfPlaybackKeepsGood(r, n, t);
    EndOfPlaybackKeepsVol(r, r, n, t);
  }

  lemma RunningTurn(r: Rec, t: Turn)
    requires Ready(r, t)
    ensures var o := PublishesDue(PlaybackEnded(r, r, t), t); o.Fine? && Good(o.rec)
  {
    hide Good, Issued, Publishing, CanUpdate, PlaybackEnded;
    RecordingIsOpen(r);
    EndOfPlaybackKeepsGood(r, r, t);
    EndOfPlaybackKeepsVol(r, r, r, t);
    if t.due.Due? && Effective(t.due.publication) {
      UpdateKeepsGood(r, t.due.publication, t);
    }
  }

  // Where a publication after the stop goes: into the entry of the recording
  // just closed, or, when that filled its directory block, in front of the
  // next one.
  lemma LatePublicationOverwrites(r: Rec, p: Publication)
    requires Good(r) && !InRecord(r.status) && Effective(p) && r.vol.fileNumber > 0
    ensures CanUpdate(r.vol) <==> r.vol.fileNumber % 4 != 0
    ensures CanUpdate(r.vol) ==>
      var k := r.vol.fileNumber - 1;
      Publishing(r.vol, p).table[k / 4].fileEntries[k % 4].size == PublishedSize(p)
  {
    assert Holds(r.vol.table, Runs.Files(r.vol));
    GoodShape(r);
    hide Good, StoredCurrent;
  }

  /* ---------- turns as commands ---------- */

  // What a turn comes to: a stop for a fault or a full cartridge, the end of
  // playback, the publication.
  function TurnCommands(r: Rec, t: Turn): seq<Command> {
    (if t.fault || (t.total - t.pointer) % 0x1_0000_0000 <= 131072 then [Stop(t.root, t.nodes)] else [])
    + (if r.status == RecordAndPlay && t.playComplete then [StopPlayback] else [])
    + (if t.due.Due? && Effective(t.due.publication) then [Update(t.due.publication)] else [])
  }

  lemma {:induction false} SessionOfNone(r: Rec)
    ensures Session(r, []) && EndOfSession(r, []) == r
  {
  }

  lemma {:induction false} SessionStarts(r: Rec, c: Command, rest: seq<Command>)
    requires Good(r) && Issued(r, c) && Session(After(r, c), rest)
    ensures Session(r, [c] + rest) && EndOfSession(r, [c] + rest) == EndOfSession(After(r, c), rest)
  {
    assert ([c] + rest)[0] == c && ([c] + rest)[1..] == rest;
    hide Good, Issued, Next;
  }

  lemma EndingPlayback(r: Rec)
    requires Good(r)
    ensures Issued(r, StopPlayback) && After(r, StopPlayback) == PlaybackStopped(r)
    ensures r.status == RecordAndPlay ==> InRecord(PlaybackStopped(r).status)
  {
    hide Runs.Sound;
    RunOfNone(r.keepsNodes, r.vol);
  }

  lemma {:induction false} EndedOrNot(before: Rec, r: Rec, t: Turn, rest: seq<Command>)
    requires Good(r) && Session(PlaybackEnded(before, r, t), rest)
    ensures var ended := if before.status == RecordAndPlay && t.playComplete then [StopPlayback] else [];
      Session(r, ended + rest) && EndOfSession(r, ended + rest) == EndOfSession(PlaybackEnded(before, r, t), rest)
  {
    hide Good, Issued, Session, EndOfSession, PlaybackStopped, After;
    EndingPlayback(r);
    if before.status == RecordAndPlay && t.playComplete {
      SessionStarts(r, StopPlayback, rest);
    } else {
      assert [] + rest == rest;
    }
  }

  lemma {:induction false} PublicationIsCommand(r: Rec, t: Turn)
    requires Good(r) && t.due.Due? && Effective(t.due.publication) && Issued(r, Update(t.due.publication))
    ensures Session(r, [Update(t.due.publication)])
    ensures PublishesDue(r, t) == Fine(EndOfSession(r, [Update(t.due.publication)]))
  {
    var c := Update(t.due.publication);
    Callable(r, c);
    assert CanUpdate(r.vol) && After(r, c) == r.(vol := Publishing(r.vol, t.due.publication)) by {
      hide Good, Issued, Publishing;
    }
    hide Good, Issued, Publishing, CanUpdate, After, Next;
    SessionOfNone(After(r, c));
    SessionStarts(r, c, []);
    assert [c] + [] == [c];
  }

  // Unless it stops twice or publishes after it has stopped, a turn is a
  // session of these commands, so that all that holds over every session
  // holds over turns as well.
  lemma {:induction false} TurnIsCommands(r: Rec, t: Turn)
    requires Ready(r, t) && !(t.fault && Full(t.total, t.pointer))
    requires !((t.fault || Full(t.total, t.pointer)) && t.due.Due? && Effective(t.due.publication))
    ensures Stoppable(r, t) && Session(r, TurnCommands(r, t))
    ensures Turned(r, t) == Fine(EndOfSession(r, TurnCommands(r, t)))
  {
    OneStopKeepsGood(r, t);
    FirstStopShape(r, t);
    var a := FirstStop(r, t);
    if t.fault || Full(t.total, t.pointer) {
      StopIsCommand(r, t);
    } else {
      NoStopIsCommands(r, t);
    }
  }

  lemma {:induction false} StopIsCommand(r: Rec, t: Turn)
    requires Ready(r, t) && (t.fault || Full(t.total, t.pointer)) && !(t.fault && Full(t.total, t.pointer))
    requires !(t.due.Due? && Effective(t.due.publication)) && Stoppable(r, t) && Good(FirstStop(r, t))
    ensures Session(r, TurnCommands(r, t)) && Turned(r, t) == Fine(EndOfSession(r, TurnCommands(r, t)))
  {
    hide Good, Issued, Session, EndOfSession, Ready, Stoppable, FirstStop, After, PlaybackEnded, Turned, Effective;
    var a, stop := FirstStop(r, t), Stop(t.root, t.nodes);
    OneStopTurn(r, t);
    SessionOfNone(PlaybackEnded(r, a, t));
    EndedOrNot(r, a, t, []);
    var ended := if r.status == RecordAndPlay && t.playComplete then [StopPlayback] else [];
    SessionStarts(r, stop, ended + []);
    assert TurnCommands(r, t) == [stop] + (ended + []);
  }

  lemma OneStopTurn(r: Rec, t: Turn)
    requires Ready(r, t) && (t.fault || Full(t.total, t.pointer)) && !(t.fault && Full(t.total, t.pointer))
    requires !(t.due.Due? && Effective(t.due.publication)) && Stoppable(r, t)
    ensures Good(r) && Issued(r, Stop(t.root, t.nodes)) && After(r, Stop(t.root, t.nodes)) == FirstStop(r, t)
    ensures Turned(r, t) == Fine(PlaybackEnded(r, FirstStop(r, t), t))
  {
    hide Stopped, Good, Issued;
    Callable(r, Stop(t.root, t.nodes));
    FirstStopShape(r, t);
  }

  lemma {:induction false} NoStopIsCommands(r: Rec, t: Turn)
    requires Ready(r, t) && !t.fault && !Full(t.total, t.pointer) && Stoppable(r, t)
    ensures Session(r, TurnCommands(r, t)) && Turned(r, t) == Fine(EndOfSession(r, TurnCommands(r, t)))
  {
    hide Good, Issued, Session, EndOfSession, Ready, Stoppable, PlaybackEnded, Turned, PublishesDue, Effective;
    var c := PlaybackEnded(r, r, t);
    var due := if t.due.Due? && Effective(t.due.publication) then [Update(t.due.publication)] else [];
    NoStopTurn(r, t);
    EndOfPlaybackKeepsGood(r, r, t);
    EndingPlayback(r);
    if due != [] {
      StillIssued(r, t);
      PublicationIsCommand(c, t);
      EndedOrNot(r, r, t, due);
    } else {
      SessionOfNone(c);
      EndedOrNot(r, r, t, due);
    }
  }

  lemma NoStopTurn(r: Rec, t: Turn)
    requires Ready(r, t) && !t.fault && !Full(t.total, t.pointer) && Stoppable(r, t)
    ensures var due := t.due.Due? && Effective(t.due.publication);
      && TurnCommands(r, t) == (if r.status == RecordAndPlay && t.playComplete then [StopPlayback] else [])
                               + (if due then [Update(t.due.publication)] else [])
      && Turned(r, t) == PublishesDue(PlaybackEnded(r, r, t), t)
      && (!due ==> Turned(r, t) == Fine(PlaybackEnded(r, r, t)))
      && Good(r) && InRecord(r.status) && (due ==> Issued(r, Update(t.due.publication)))
  {
    hide Good, Issued, PlaybackEnded;
  }

  // A second stop in one turn also takes playback from sight.
  lemma TwoStopsHidePlayback(r: Rec, t: Turn)
    requires Stoppable(r, t) && r.status == RecordAndPlay && t.fault && Full(t.total, t.pointer)
    requires BothStops(r, t).Fine?
    ensures FirstStop(r, t).status == Playing && BothStops(r, t).rec.status == Idle
  {
    hide Closed, RootPublished, CanUpdate;
  }

  // The end of playback does not keep the publication from being issued.
  lemma StillIssued(r: Rec, t: Turn)
    requires Good(r) && InRecord(r.status) && t.due.Due? && Issued(r, Update(t.due.publication))
    ensures Issued(PlaybackEnded(r, r, t), Update(t.due.publication))
  {
    hide Runs.Possible, Runs.Sound, OpsOf;
    SameOps(r, PlaybackEnded(r, r, t), t.due.publication);
  }

  lemma SameOps(r: Rec, n: Rec, p: Publication)
    ensures OpsOf(r, Update(p)) == OpsOf(n, Update(p))
  {
  }

  lemma StoppedShape(r: Rec, t: Turn)
    requires Ready(r, t) && (t.fault || Full(t.total, t.pointer))
    ensures Stoppable(r, t)
    ensures var a := FirstStop(r, t);
      && |a.vol.table| == MAX_STANAG_BLOCKS && a.vol.fileNumber == r.vol.fileNumber + 1 < MAX_NUM_FILES
      && |a.vol.nodeList| == MAX_NUM_FILES && (CanUpdate(a.vol) <==> a.vol.fileNumber % 4 != 0)
  {
    hide Good, Issued, FirstStop, Stopped, CanUpdate;
    OneStopKeepsGood(r, t);
    FirstStopShape(r, t);
    ClosedByStop(r, t);
    ClosedCanUpdate(FirstStop(r, t));
  }

  lemma ClosedByStop(r: Rec, t: Turn)
    requires Stoppable(r, t) && (t.fault || Full(t.total, t.pointer))
    ensures FirstStop(r, t).vol.fileNumber == r.vol.fileNumber + 1
  {
    hide Closed, RootPublished;
    RootPublishedShape(r.vol, t.root);
    ClosedIsClosed(RootPublished(r.vol, t.root), t.nodes);
  }

  lemma ClosedCanUpdate(a: Rec)
    requires Good(a) && !InRecord(a.status) && 0 < a.vol.fileNumber < MAX_NUM_FILES
    ensures CanUpdate(a.vol) <==> a.vol.fileNumber % 4 != 0
  {
    assert Holds(a.vol.table, Runs.Files(a.vol));
    GoodShape(a);
    hide Good;
  }

  // Exactly these turns write in front of an empty directory block: the
  // recording filled its block, and after the stop the second one finds a
  // root to publish, or the publication is due.
  lemma TurnsOutOfBounds(r: Rec, t: Turn)
    requires Ready(r, t) && (t.fault || Full(t.total, t.pointer))
    ensures Stoppable(r, t)
    ensures t.fault && Full(t.total, t.pointer) ==>
      (BothStops(r, t).OutOfBounds?
       <==> t.rootAgain.LastRoot? && t.rootAgain.offset > 0 && t.rootAgain.present && r.vol.fileNumber % 4 == 3)
    ensures !(t.fault && Full(t.total, t.pointer)) ==>
      (Turned(r, t).OutOfBounds? <==> t.due.Due? && Effective(t.due.publication) && r.vol.fileNumber % 4 == 3)
  {
    hide Good, Issued, FirstStop, Stopped, CanUpdate, Publishing, PlaybackStopped, Ready;
    StoppedShape(r, t);
    var a := FirstStop(r, t);
    EndOfPlaybackKeepsVol(r, a, a, t);
  }
}
