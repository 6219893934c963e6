// What the recorder status means: over every session it is the product of
// three machines, each driven by the commands and their replies alone.
module CommandLaws {
  import opened Bytes
  import opened Volume
  import opened VolumeInvariant
  import opened Recorder
  import opened DiskGuard
  import Runs

  // A recording runs from the Record that was carried out to the next Stop.
  function RecordingAfter(on: bool, c: Command, reply: Reply): bool {
    match c
    case Record(_, _, _, _, _, _) => on || reply == Done
    case Stop(_, _) => false
    case PowerLoss(_, _) => false
    case _ => on
  }

  // Playback runs from its start to its stop, or to a Record that is refused
  // for lack of room; neither a stop nor a Record that is carried out ends it.
  function PlaybackAfter(on: bool, c: Command, reply: Reply): bool {
    match c
    case StartPlayback => true
    case StopPlayback => false
    case Record(_, _, _, _, _, _) => on && reply != MemoryFull
    case PowerLoss(_, _) => false
    case _ => on
  }

  datatype Task = NoTask | Test | EraseTask | DeclassifyTask | InError | Failed

  // A task runs from the command that was accepted until it is finished; what
  // went wrong is shown until it is asked for.
  function TaskAfter(task: Task, c: Command, reply: Reply): Task {
    match c
    case Erase(_, _) => if reply == Done then EraseTask else task
    case BuiltInTest => if reply == Done then Test else task
    case Declassify(_) => if reply == Done then DeclassifyTask else task
    case Finished(ok) => if ok then NoTask else Failed
    case StatusQuery => if task == InError || task == Failed then NoTask else task
    case Record(_, _, _, _, _, _) => if reply == Done then NoTask else if reply == MemoryFull then InError else task
    case StartPlayback => NoTask
    case StopPlayback => NoTask
    case PowerLoss(_, _) => NoTask
    case _ => task
  }

  datatype Modes = Modes(recording: bool, playing: bool, task: Task)

  function ModesAfter(m: Modes, c: Command, reply: Reply): Modes {
    Modes(RecordingAfter(m.recording, c, reply), PlaybackAfter(m.playing, c, reply), TaskAfter(m.task, c, reply))
  }

  // A task excludes recording and playback.
  predicate Consistent(m: Modes) {
    m.recording || m.playing ==> m.task == NoTask
  }

  function StatusOf(m: Modes): Status {
    if m.recording then (if m.playing then RecordAndPlay else Recording)
    else if m.playing then Playing
    else match m.task
         case NoTask => Idle
         case Test => BuiltInTesting
         case EraseTask => Erasing
         case DeclassifyTask => Declassifying
         case InError => Error
         case Failed => Fail
  }

  ghost predicate Follows(r: Rec, m: Modes) {
    && Consistent(m) && r.status == StatusOf(m)
    && (r.recordGo <==> m.recording) && (r.toDisk <==> m.recording)
  }

  // The reply to a command, from the three machines and what the command
  // finds.
  function ReplyTo(m: Modes, c: Command, used: U32): Reply {
    match c
    case Record(_, _, _, tmatsLoaded, connected, available) =>
      if m.recording || !(m.task == NoTask || m.task == InError) || !tmatsLoaded then InvalidMode
      else if !connected then NoMedia
      else if used + 131072 < (available - 129) % 0x1_0000_0000 then Done
      else MemoryFull
    case Erase(_, _) =>
      if m.recording || m.playing || !(m.task == NoTask || m.task == InError) then InvalidMode else Done
    case BuiltInTest =>
      if m.recording || m.playing || !(m.task == NoTask || m.task == InError || m.task == Failed) then InvalidMode
      else Done
    case Declassify(ok) =>
      if m.recording || m.playing || !(m.task == NoTask || m.task == InError) then InvalidMode
      else if ok then Done else CommandFailed
    case _ => Done
  }

  lemma CommandFollows(r: Rec, m: Modes, c: Command)
    requires Good(r) && Issued(r, c) && Follows(r, m)
    ensures Answered(r, c).1 == ReplyTo(m, c, UsedBlocks(r.vol))
    ensures Follows(After(r, c), ModesAfter(m, c, Answered(r, c).1))
  {
    if c.Record? {
      RecordFollows(r, m, c);
    } else {
      OthersFollow(r, m, c);
    }
  }

  lemma RecordFollows(r: Rec, m: Modes, c: Command)
    requires Good(r) && Issued(r, c) && Follows(r, m) && c.Record?
    ensures Answered(r, c).1 == ReplyTo(m, c, UsedBlocks(r.vol))
    ensures Follows(After(r, c), ModesAfter(m, c, Answered(r, c).1))
  {
    hide Runs.Sound, Runs.Possible, OpsOf, CanOpen, Opened, UsedBlocks, Accepts, Remaining;
    Callable(r, c);
    assert Coupled(r);
    AcceptsIffRoomReported(TotalBlocks(c.available), UsedBlocks(r.vol));
  }

  lemma OthersFollow(r: Rec, m: Modes, c: Command)
    requires Good(r) && Issued(r, c) && Follows(r, m) && !c.Record?
    ensures Answered(r, c).1 == ReplyTo(m, c, UsedBlocks(r.vol))
    ensures Follows(After(r, c), ModesAfter(m, c, Answered(r, c).1))
  {
    hide Runs.Sound, Runs.Possible, OpsOf, CanUpdate, Closed, RootPublished, Publishing, Erased, TmatsErased,
         PowerCycled, Captured, Runs.Cuttable, Runs.CutSectors, UsedBlocks, Coupled, Publishes, Recorded;
    Callable(r, c);
  }

  // The machines after a session.
  ghost function ModesOf(r: Rec, m: Modes, commands: seq<Command>): Modes
    requires Session(r, commands)
    decreases |commands|
  {
    if commands == [] then m
    else
      var c := commands[0];
      ModesOf(After(r, c), ModesAfter(m, c, Answered(r, c).1), commands[1..])
  }

  // Over every session the status, and both recording bits, are those of the
  // three machines.
  lemma {:induction false} SessionFollows(r: Rec, m: Modes, commands: seq<Command>)
    requires Good(r) && Session(r, commands) && Follows(r, m)
    ensures Follows(EndOfSession(r, commands), ModesOf(r, m, commands))
    decreases |commands|
  {
    hide Good, Issued, Next, Follows, ModesAfter;
    if commands != [] {
      var c := commands[0];
      CommandFollows(r, m, c);
      CommandKeepsGood(r, c);
      SessionFollows(After(r, c), ModesAfter(m, c, Answered(r, c).1), commands[1..]);
    }
  }

  // And so is the reply to the next command.
  lemma {:induction false} SessionReplies(r: Rec, m: Modes, commands: seq<Command>, c: Command)
    requires Good(r) && Session(r, commands) && Follows(r, m) && Issued(EndOfSession(r, commands), c)
    ensures Good(EndOfSession(r, commands))
    ensures Answered(EndOfSession(r, commands), c).1
         == ReplyTo(ModesOf(r, m, commands), c, UsedBlocks(EndOfSession(r, commands).vol))
  {
    hide Good, Issued, Next, Follows, Session, EndOfSession, ModesOf, ReplyTo, UsedBlocks;
    SessionKeepsGood(r, commands);
    SessionFollows(r, m, commands);
    CommandFollows(EndOfSession(r, commands), ModesOf(r, m, commands), c);
  }

  // While a started playback has not ended, the recorder shows it, and takes
  // no erase, no test and no declassification.
  lemma {:induction false} PlaybackProtects(r: Rec, m: Modes, commands: seq<Command>, c: Command)
    requires Good(r) && Session(r, commands) && Follows(r, m)
    ensures var n := EndOfSession(r, commands);
      && (n.status == Playing || n.status == RecordAndPlay <==> ModesOf(r, m, commands).playing)
      && (n.status == Recording || n.status == RecordAndPlay <==> ModesOf(r, m, commands).recording)
      && Good(n)
      && (ModesOf(r, m, commands).playing && (c.Erase? || c.BuiltInTest? || c.Declassify?) && Issued(n, c) ==>
            Answered(n, c) == (n, InvalidMode))
  {
    hide *;
    SessionFollows(r, m, commands);
    SessionKeepsGood(r, commands);
    var n, now := EndOfSession(r, commands), ModesOf(r, m, commands);
    ShowsModes(n, now);
    if now.playing && (c.Erase? || c.BuiltInTest? || c.Declassify?) && Issued(n, c) {
      Refused(n, now, c);
    }
  }

  lemma ShowsModes(r: Rec, m: Modes)
    requires Follows(r, m)
    ensures r.status == Playing || r.status == RecordAndPlay <==> m.playing
    ensures r.status == Recording || r.status == RecordAndPlay <==> m.recording
  {
  }

  lemma Refused(n: Rec, m: Modes, c: Command)
    requires Good(n) && Follows(n, m) && m.playing && Issued(n, c) && (c.Erase? || c.BuiltInTest? || c.Declassify?)
    ensures Answered(n, c) == (n, InvalidMode)
  {
    Callable(n, c);
    hide Runs.Sound, Runs.Possible, OpsOf, Erased, TmatsErased;
  }
}
