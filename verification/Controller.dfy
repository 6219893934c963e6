// M23_Controller.c and the playback commands of M23_Utilities.c: the recorder
// status and the two recording bits, changed step by step around the
// directory.  Each method is proved against its step in module Recorder.
module Controller {
  import opened Bytes
  import opened DirectoryFormat
  import opened Directory
  import opened NodeFile
  import opened Volume
  import opened StanagVolume
  import opened DiskGuard
  import opened Recorder
  import opened ControlLoop

  class M23Controller {
    const stanag: Stanag
    const keepsNodes: bool
    var recorderStatus: Status
    var recordGo: bool
    var toDisk: bool

    constructor (stanag: Stanag, keepsNodes: bool)
      ensures this.stanag == stanag && this.keepsNodes == keepsNodes && recorderStatus == Idle && !recordGo && !toDisk
    {
      this.stanag, this.keepsNodes := stanag, keepsNodes;
      recorderStatus, recordGo, toDisk := Idle, false, false;
    }

    ghost predicate Valid()
      reads this, stanag
    {
      stanag.Allocated()
    }

    ghost function State(): Rec
      reads this, stanag, stanag.disk, stanag.fileTable, stanag.nodeList
    {
      Rec(keepsNodes, recorderStatus, recordGo, toDisk, stanag.State())
    }

    method SetRecorderState(status: Status)
      modifies this`recorderStatus
      ensures recorderStatus == StateSet(old(recorderStatus), status)
    {
      if recorderStatus != Recording {
        recorderStatus := status;
      } else if status == RecordAndPlay {
        recorderStatus := status;
      }
    }

    // Record and RecordFile.  name is the one sopen makes up from the file
    // index when the caller gives none.
    method RecordCommand(name: Text56, date: Text8, time: Text8, tmatsLoaded: bool) returns (reply: Reply)
      requires Valid() && (CanRecord(recorderStatus) && !stanag.isOpen ==> CanOpen(stanag.State()))
      modifies this, stanag`isOpen, stanag`totalBytesWritten, stanag`numberOfBlocksWritten, stanag.fileTable
      modifies stanag.disk`recordPointer
      ensures Valid()
      ensures (State(), reply) == Recorded(old(State()), Record(name, date, time, tmatsLoaded, stanag.disk.connected,
                                                                stanag.totalAvailableBlocks))
      ensures reply == Done ==> stanag.disk.recordPointer == stanag.currentWriteBlock
    {
      hide CanOpen, OpenedTable;
      if recorderStatus != Idle && recorderStatus != Error && recorderStatus != Playing {
        return InvalidMode;
      }
      if !tmatsLoaded {
        return InvalidMode;
      }
      if !stanag.disk.connected {
        return NoMedia;
      }
      var total, used := stanag.SDisk();
      if Difference(total, used) <= SYSTEM_BLOCKS_RESERVED || used >= total {
        recorderStatus := Error;
        return MemoryFull;
      }
      var file := stanag.SOpen(name, date, time);
      if file < 0 {
        recorderStatus := Error;
        return CommandFailed;
      }
      toDisk := true;
      recordGo := true;
      if recorderStatus == Playing {
        recorderStatus := RecordAndPlay;
      } else {
        recorderStatus := Recording;
      }
      return Done;
    }

    // Stop and Emergency_Stop.  dump: a node file is written.
    method StopCommand(root: LastRoot, dump: bool, buffer: array<Byte>, nodes: array<Node>, currentNode: nat)
      requires Valid() && stanag.currentFileNumber < MAX_NUM_FILES
      requires Publishes(root) ==> CanUpdate(stanag.State()) && root.connected == stanag.disk.connected
      requires buffer.Length == NODE_BUFFER_BYTES && (dump ==> currentNode <= nodes.Length && Fits(currentNode))
      modifies this, stanag, stanag.fileTable, stanag.stanagSwapped, stanag.nodeList, buffer
      modifies stanag.disk`sectors, stanag.disk`writePointer
      ensures Valid()
      ensures State() == Stopped(old(State()), root,
                                 if dump then Dump(old(nodes[..currentNode]), old(buffer[..]), stanag.disk.connected)
                                 else NoNodes)
    {
      hide UpdatedBlocks, EmergencyClosed, NodesWritten, CanUpdate;
      if recorderStatus == RecordAndPlay {
        recorderStatus := Playing;
      } else {
        recorderStatus := Idle;
      }
      toDisk := false;
      if root.LastRoot? && root.offset > 0 && root.present {
        stanag.UpdateStanagBlocks(root.offset, root.pktLen, false, root.time);
      }
      recordGo := false;
      stanag.EmergencyClose(true);
      if dump {
        stanag.WriteNodesFile(buffer, nodes, currentNode);
      }
    }

    method StartPlaybackCommand()
      modifies this`recorderStatus
      ensures State() == PlaybackStarted(old(State()))
    {
      if recorderStatus == Recording {
        SetRecorderState(RecordAndPlay);
      } else {
        SetRecorderState(Playing);
      }
    }

    method StopPlaybackCommand()
      modifies this`recorderStatus
      ensures State() == PlaybackStopped(old(State()))
    {
      if recorderStatus == RecordAndPlay {
        SetRecorderState(Recording);
      } else {
        SetRecorderState(Idle);
      }
    }

    // ok: the cartridge carries out the erase.
    method EraseCommand(keepTmats: bool, ok: bool) returns (reply: Reply)
      requires Valid()
      modifies this`recorderStatus, stanag, stanag.fileTable, stanag.stanagSwapped
      modifies stanag.disk`sectors, stanag.disk`writePointer
      ensures Valid() && (State(), reply) == Erasure(old(State()), keepTmats, ok)
    {
      hide Erased, TmatsErased;
      if recorderStatus != Idle && recorderStatus != Error {
        return InvalidMode;
      }
      recorderStatus := Erasing;
      stanag.SErase(keepTmats, ok);
      return Done;
    }

    method BuiltInTestCommand() returns (reply: Reply)
      modifies this`recorderStatus
      ensures (State(), reply) == Tested(old(State()))
    {
      if recorderStatus != Idle && recorderStatus != Error && recorderStatus != Fail {
        return InvalidMode;
      }
      recorderStatus := BuiltInTesting;
      return Done;
    }

    // ok: the cartridge accepted the command.
    method DeclassifyCommand(ok: bool) returns (reply: Reply)
      modifies this`recorderStatus
      ensures (State(), reply) == Declassified(old(State()), ok)
    {
      if recorderStatus != Idle && recorderStatus != Error {
        return InvalidMode;
      }
      if ok {
        recorderStatus := Declassifying;
        return Done;
      }
      return CommandFailed;
    }

    method StatusCommand()
      modifies this`recorderStatus
      ensures State() == Queried(old(State()))
    {
      if recorderStatus == Error || recorderStatus == Fail {
        recorderStatus := Idle;
      }
    }

    // Media; the figures are only set when the recorder is not declassifying.
    method MediaCommand() returns (reply: Reply, used: U32, remaining: U32)
      ensures reply == if recorderStatus == Declassifying then InvalidMode else Done
      ensures reply == Done ==>
        used == UsedBlocks(stanag.State()) && remaining == Remaining(TotalBlocks(stanag.totalAvailableBlocks), used)
    {
      used, remaining := 0, 0;
      if recorderStatus == Declassifying {
        return InvalidMode, 0, 0;
      }
      var total;
      total, used := stanag.SDisk();
      if used >= total {
        remaining := 0;
      } else {
        remaining := total - used;
        if remaining < SYSTEM_BLOCKS_RESERVED + 1 {
          remaining := 0;
        }
      }
      reply := Done;
    }

    // What the control loop does in one turn that starts while recording.
    // The second stop finds the node list empty.
    method RecordingTurn(t: Turn, buffer: array<Byte>, nodes: array<Node>, currentNode: nat)
      requires Valid() && InRecord(recorderStatus) && Stoppable(State(), t) && Turned(State(), t).Fine?
      requires t.root.LastRoot? ==> t.root.connected == stanag.disk.connected
      requires t.rootAgain.LastRoot? ==> t.rootAgain.connected == stanag.disk.connected
      requires t.due.Due? ==> t.due.publication.connected == stanag.disk.connected
      requires buffer.Length == NODE_BUFFER_BYTES
      requires t.nodes.Dump? ==> currentNode <= nodes.Length && Fits(currentNode)
                                 && t.nodes == Dump(nodes[..currentNode], buffer[..], stanag.disk.connected)
      requires t.nodesAgain == if t.nodes.Dump? then Dump([], buffer[..], stanag.disk.connected) else NoNodes
      modifies this, stanag, stanag.fileTable, stanag.stanagSwapped, stanag.nodeList, buffer
      modifies stanag.disk`sectors, stanag.disk`writePointer
      ensures Valid() && Turned(old(State()), t) == Fine(State())
    {
      hide Stopped, Publishing, CanUpdate, BothStops;
      var state := recorderStatus;
      StopsOfTurn(t, buffer, nodes, currentNode);
      if state == RecordAndPlay && t.playComplete {
        StopPlaybackCommand();
      }
      if t.due.Due? {
        PublishCommand(t.due.publication);
      }
    }

    // The stops for a fault and for a full cartridge.
    method StopsOfTurn(t: Turn, buffer: array<Byte>, nodes: array<Node>, currentNode: nat)
      requires Valid() && Stoppable(State(), t)
      requires BothStops(State(), t).Fine?
      requires t.root.LastRoot? ==> t.root.connected == stanag.disk.connected
      requires t.rootAgain.LastRoot? ==> t.rootAgain.connected == stanag.disk.connected
      requires buffer.Length == NODE_BUFFER_BYTES
      requires t.nodes.Dump? ==> currentNode <= nodes.Length && Fits(currentNode)
                                 && t.nodes == Dump(nodes[..currentNode], buffer[..], stanag.disk.connected)
      requires t.nodesAgain == if t.nodes.Dump? then Dump([], buffer[..], stanag.disk.connected) else NoNodes
      modifies this, stanag, stanag.fileTable, stanag.stanagSwapped, stanag.nodeList, buffer
      modifies stanag.disk`sectors, stanag.disk`writePointer
      ensures Valid()
      ensures BothStops(old(State()), t) == Fine(State())
    {
      FirstStopShape(State(), t);
      hide Stopped, CanUpdate;
      if t.fault {
        StopCommand(t.root, t.nodes.Dump?, buffer, nodes, currentNode);
      }
      if Difference(t.total, t.pointer) <= SYSTEM_BLOCKS_RESERVED {
        if t.fault {
          if t.nodes.Dump? {
            SameStop(State(), t.rootAgain, buffer[..], t.nodesAgain.stale, stanag.disk.connected);
          }
          StopCommand(t.rootAgain, t.nodes.Dump?, buffer, nodes, 0);
        } else {
          StopCommand(t.root, t.nodes.Dump?, buffer, nodes, currentNode);
        }
      }
    }

    // UpdateStanagBlocks for a root at a nonzero offset, or
    // UpdateStanagAndBlocks when there is no index.
    method PublishCommand(p: Publication)
      requires Valid() && (Effective(p) ==> CanUpdate(stanag.State())) && p.connected == stanag.disk.connected
      modifies stanag, stanag.fileTable, stanag.stanagSwapped, stanag.disk`sectors, stanag.disk`writePointer
      ensures Valid()
      ensures State() == if Effective(p) then old(State()).(vol := Publishing(old(stanag.State()), p)) else old(State())
    {
      if !p.present {
        return;
      }
      if p.Indexed? {
        if p.offset > 0 {
          stanag.UpdateStanagBlocks(p.offset, p.pktLen, false, p.time);
        }
      } else {
        stanag.UpdateStanagAndBlocks(p.blocks, false, p.time);
      }
    }
  }
}
