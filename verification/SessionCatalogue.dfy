// What a session of commands leaves in the directory and behind the
// recordings, told from the commands and their replies.
module SessionCatalogue {
  import opened Bytes
  import opened Directory
  import opened NodeFile
  import opened Volume
  import opened Recorder
  import opened Catalogue
  import Runs
  import Backing
  import Tally

  // A Record that is carried out opens a recording at the cursor; roots at a
  // nonzero offset and block counts are published; an erase that is accepted
  // and a loss of power change both lists.
  function FiledBy(s: Shelf, c: Command, reply: Reply, cursor: nat): Shelf {
    match c
    case Record(name, date, time, _, _, _) =>
      if reply == Done then s.(memory := s.memory + [Card(name, date, time, cursor, 0, time)]) else s
    case Stop(root, _) =>
      if root.LastRoot? && root.offset > 0 && root.present
      then Written(s, (root.offset + root.pktLen) % TWO64, root.time, root.connected) else s
    case Update(p) =>
      if !p.present then s
      else if p.Counted? then Written(s, 512 * p.blocks, p.time, p.connected)
      else if p.offset > 0 then Written(s, (p.offset + p.pktLen) % TWO64, p.time, p.connected) else s
    case Erase(keepTmats, ok) =>
      if reply != Done then s
      else if keepTmats then Shelf(Kept(s.memory), Kept(s.memory))
      else Shelf([], if ok then [] else s.cartridge)
    case PowerLoss(cut, _) => Shelf(CutCards(s, cut), CutCards(s, cut))
    case _ => s
  }

  ghost function FiledSession(r: Rec, s: Shelf, commands: seq<Command>): Shelf
    requires Session(r, commands)
    decreases |commands|
  {
    if commands == [] then s
    else
      var c := commands[0];
      FiledSession(After(r, c), FiledBy(s, c, Answered(r, c).1, r.vol.writeBlock), commands[1..])
  }

  /* ---------- a command files what its operations file ---------- */

  lemma {:induction false} FiledOne(probe: bool, v: Vol, s: Shelf, op: Runs.Op)
    requires Runs.Possible(probe, v, [op])
    ensures FiledRun(probe, v, s, [op]) == Filed(s, op, v.isOpen, v.writeBlock)
  {
    assert [op] + [] == [op];
    FiledFirst(probe, v, s, op, []);
    NoneFiled(probe, Runs.Step(probe, v, op), Filed(s, op, v.isOpen, v.writeBlock));
    hide Runs.Sound, Runs.Enabled, Runs.Step, Filed;
  }

  lemma {:induction false} FiledTwo(probe: bool, v: Vol, s: Shelf, a: Runs.Op, b: Runs.Op)
    requires Runs.Possible(probe, v, [a] + [b]) && (b.Stop? || b.StopWithNodes?)
    ensures FiledRun(probe, v, s, [a] + [b]) == Filed(s, a, v.isOpen, v.writeBlock)
  {
    hide Runs.Sound, Runs.Enabled, Runs.Step, Runs.Possible, FiledRun;
    FiledFirst(probe, v, s, a, [b]);
    FiledOne(probe, Runs.Step(probe, v, a), Filed(s, a, v.isOpen, v.writeBlock), b);
  }

  lemma {:induction false} CommandIsFiled(r: Rec, s: Shelf, c: Command)
    requires Good(r) && Issued(r, c)
    ensures Runs.Possible(r.keepsNodes, r.vol, OpsOf(r, c))
    ensures FiledRun(r.keepsNodes, r.vol, s, OpsOf(r, c)) == FiledBy(s, c, Answered(r, c).1, r.vol.writeBlock)
  {
    hide Good, Runs.Possible, FiledRun, Next, UsedBlocks;
    NoneFiled(r.keepsNodes, r.vol, s);
    if c.Record? {
      RecordIsFiled(r, s, c);
    } else if c.Stop? {
      StopIsFiled(r, s, c);
    } else if c.Erase? {
      EraseIsFiled(r, s, c);
    } else if OpsOf(r, c) != [] {
      FiledOne(r.keepsNodes, r.vol, s, OpsOf(r, c)[0]);
    }
  }

  lemma {:induction false} RecordIsFiled(r: Rec, s: Shelf, c: Command)
    requires Good(r) && Issued(r, c) && c.Record? && Runs.Possible(r.keepsNodes, r.vol, OpsOf(r, c))
    ensures FiledRun(r.keepsNodes, r.vol, s, OpsOf(r, c)) == FiledBy(s, c, Answered(r, c).1, r.vol.writeBlock)
  {
    hide Runs.Sound, Runs.Possible, FiledRun, UsedBlocks, Opened, CanOpen;
    Callable(r, c);
    NoneFiled(r.keepsNodes, r.vol, s);
    if OpsOf(r, c) != [] {
      FiledOne(r.keepsNodes, r.vol, s, OpsOf(r, c)[0]);
    }
  }

  lemma {:induction false} StopIsFiled(r: Rec, s: Shelf, c: Command)
    requires Good(r) && Issued(r, c) && c.Stop? && Runs.Possible(r.keepsNodes, r.vol, OpsOf(r, c))
    ensures FiledRun(r.keepsNodes, r.vol, s, OpsOf(r, c)) == FiledBy(s, c, Answered(r, c).1, r.vol.writeBlock)
  {
    hide Good, Issued, Runs.Possible, FiledRun, Next, Written;
    var close := CloseOp(c.nodes);
    if RootOps(c.root) == [] {
      assert RootOps(c.root) + [close] == [close];
      FiledOne(r.keepsNodes, r.vol, s, close);
    } else {
      FiledTwo(r.keepsNodes, r.vol, s, RootOps(c.root)[0], close);
    }
  }

  lemma {:induction false} EraseIsFiled(r: Rec, s: Shelf, c: Command)
    requires Good(r) && Issued(r, c) && c.Erase? && Runs.Possible(r.keepsNodes, r.vol, OpsOf(r, c))
    ensures FiledRun(r.keepsNodes, r.vol, s, OpsOf(r, c)) == FiledBy(s, c, Answered(r, c).1, r.vol.writeBlock)
  {
    hide Runs.Sound, Runs.Possible, FiledRun, Erased, TmatsErased;
    Callable(r, c);
    NoneFiled(r.keepsNodes, r.vol, s);
    if OpsOf(r, c) != [] {
      FiledOne(r.keepsNodes, r.vol, s, OpsOf(r, c)[0]);
    }
  }

  /* ---------- every session ---------- */

  lemma {:induction false} FiledAppend(probe: bool, v: Vol, s: Shelf, first: seq<Runs.Op>, more: seq<Runs.Op>)
    requires Runs.Possible(probe, v, first) && Runs.Possible(probe, Runs.Run(probe, v, first), more)
    ensures Runs.Possible(probe, v, first + more)
    ensures FiledRun(probe, v, s, first + more)
         == FiledRun(probe, Runs.Run(probe, v, first), FiledRun(probe, v, s, first), more)
    decreases |first|
  {
    hide Runs.Sound, Runs.Enabled, Runs.Step, Filed;
    Tally.RunAppend(probe, v, first, more);
    if first == [] {
      assert first + more == more;
    } else {
      assert (first + more)[0] == first[0] && (first + more)[1..] == first[1..] + more;
      FiledAppend(probe, Runs.Step(probe, v, first[0]), Filed(s, first[0], v.isOpen, v.writeBlock), first[1..], more);
    }
  }

  lemma {:induction false} SessionIsFiled(r: Rec, s: Shelf, commands: seq<Command>)
    requires Good(r) && Session(r, commands)
    ensures Runs.Possible(r.keepsNodes, r.vol, SessionOps(r, commands))
    ensures FiledRun(r.keepsNodes, r.vol, s, SessionOps(r, commands)) == FiledSession(r, s, commands)
    decreases |commands|
  {
    if commands == [] {
      RunOfNone(r.keepsNodes, r.vol);
      NoneFiled(r.keepsNodes, r.vol, s);
    } else {
      hide Good, Issued, OpsOf, Runs.Possible, Runs.Run, After, Next, FiledRun, FiledBy;
      var c := commands[0];
      CommandKeepsGood(r, c);
      CommandRunsItsOps(r, c);
      ConfigurationStays(r, c);
      CommandIsFiled(r, s, c);
      SessionIsFiled(After(r, c), FiledBy(s, c, Answered(r, c).1, r.vol.writeBlock), commands[1..]);
      FiledAppend(r.keepsNodes, r.vol, s, OpsOf(r, c), SessionOps(After(r, c), commands[1..]));
    }
  }

  // Over every session whose directory operations reach, both lists show what
  // was recorded and published, field by field.
  lemma {:induction false} SessionIsCatalogued(r: Rec, s: Shelf, commands: seq<Command>)
    requires Good(r) && Backing.Backed(r.vol) && InCatalogue(r.vol, s) && Session(r, commands)
    ensures Runs.Possible(r.keepsNodes, r.vol, SessionOps(r, commands))
    ensures Backing.AllReach(r.keepsNodes, r.vol, SessionOps(r, commands)) ==>
      InCatalogue(EndOfSession(r, commands).vol, FiledSession(r, s, commands))
  {
    assert Runs.Sound(r.vol);
    hide Good, Session, SessionOps, EndOfSession, FiledSession, FiledRun, Runs.Possible, Runs.Run, Runs.Sound,
         Backing.Backed, Backing.AllReach, InCatalogue;
    SessionIsRun(r, commands);
    SessionIsFiled(r, s, commands);
    if Backing.AllReach(r.keepsNodes, r.vol, SessionOps(r, commands)) {
      RunIsCatalogued(r.keepsNodes, r.vol, s, SessionOps(r, commands));
    }
  }

  /* ---------- the node file of a stop ---------- */

  // A stop in the configuration that keeps node files writes the list behind
  // the recording, where NodeList remembers it, and moves the cursor past it.
  lemma StopWritesNodes(r: Rec, root: LastRoot, nodes: DumpedNodes, stale: Stale, connected: bool)
    requires Good(r) && Issued(r, Stop(root, Dump(nodes, stale, connected)))
    ensures var w := After(r, Stop(root, Dump(nodes, stale, connected))).vol;
      var end, blocks := EndOfFiles(Runs.Files(w)), NodeFileBlocks(|nodes|);
      && r.vol.fileNumber < |w.nodeList| && w.nodeList[r.vol.fileNumber] == end
      && (connected && end + blocks <= |w.sectors| ==> StoredAt(w.sectors, end, nodes))
      && w.writeBlock == end + if connected then blocks + 1 else 0
  {
    var c := Stop(root, Dump(nodes, stale, connected));
    var close := Runs.StopWithNodes(true, nodes, stale, connected);
    var probe, v := r.keepsNodes, r.vol;
    assert Runs.Possible(probe, v, RootOps(root) + [close]);
    CommandRunsItsOps(r, c);
    hide Good, Issued, After, Next, Runs.Sound, Runs.Enabled, Runs.Possible, Runs.Run, Runs.Step, Runs.Files, StoredAt;
    if RootOps(root) == [] {
      assert RootOps(root) + [close] == [close];
      RunOfOne(probe, v, close);
      NodesStepped(probe, v, nodes, stale, connected);
    } else {
      var publish := RootOps(root)[0];
      RunOfTwo(probe, v, publish, close);
      var u := Runs.Step(probe, v, publish);
      RunOfOne(probe, u, close);
      NodesStepped(probe, u, nodes, stale, connected);
      PublishKeepsNumber(probe, v, publish);
    }
  }

  lemma PublishKeepsNumber(probe: bool, v: Vol, op: Runs.Op)
    requires Runs.Sound(v) && Runs.Enabled(probe, v, op) && op.Publish?
    ensures Runs.Step(probe, v, op).fileNumber == v.fileNumber
  {
    Runs.EnabledSteps(probe, v, op);
    hide Runs.Sound, UpdatedTable, StoredCurrent, Blocks;
  }

  lemma NodesStepped(probe: bool, v: Vol, nodes: DumpedNodes, stale: Stale, connected: bool)
    requires Runs.Sound(v) && Runs.Enabled(probe, v, Runs.StopWithNodes(true, nodes, stale, connected))
    ensures var w := Runs.Step(probe, v, Runs.StopWithNodes(true, nodes, stale, connected));
      var end, blocks := EndOfFiles(Runs.Files(w)), NodeFileBlocks(|nodes|);
      && v.fileNumber < |w.nodeList| && w.nodeList[v.fileNumber] == end
      && (connected && end + blocks <= |w.sectors| ==> StoredAt(w.sectors, end, nodes))
      && w.writeBlock == end + if connected then blocks + 1 else 0
  {
    hide Runs.Sound, Runs.Files, StoredAt, EmergencyClosed, NodesWritten, EndOfFiles;
    Runs.NodesStep(v, true, nodes, stale, connected);
    Runs.EnabledSteps(probe, v, Runs.StopWithNodes(true, nodes, stale, connected));
  }
}
