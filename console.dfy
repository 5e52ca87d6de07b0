/**
 * The console WebSocket handler: one `docker attach` child process per
 * open session, keyed by the session id, fed with what the browser types
 * and destroyed when the session closes.
 */
module Console {
  import opened Outcomes
  import opened Strings
  import opened Entities
  import opened Repository

  /**
   * One `docker attach` child process: the command it runs, whether it is
   * still alive, and the chunks written to its standard input so far.
   */
  datatype AttachProcess = AttachProcess(command: seq<string>, alive: bool, stdin: seq<string>)

  /** Whether the process could be started: `ProcessBuilder.start` may throw IOException. */
  datatype StartOutcome = Started | StartFailed(message: Option<string>)

  /** How the handshake ended: attached, refused with a message, or with an exception thrown. */
  datatype Handshake = Attached | Refused | HandshakeFailed(message: string)

  const Unavailable: string := "Erreur: Serveur ou conteneur introuvable."

  /**
   * The server id of a `/console-socket/{serverId}` URI path: the third
   * piece of `split("/")`, read by `Long.parseLong`. A path with fewer
   * pieces throws ArrayIndexOutOfBoundsException, a piece that is not a
   * `long` NumberFormatException.
   */
  function ServerIdOf(uriPath: string): (r: Result<int>)
    ensures r.Ok? ==> LongMin <= r.value <= LongMax
    ensures |Split(uriPath, '/')| < 3 ==> r == Err("Index 2 out of bounds for length " + IntToString(|Split(uriPath, '/')|))
    ensures |Split(uriPath, '/')| >= 3 ==>
      var piece := Split(uriPath, '/')[2];
      r == (if ParseLong(piece).Some? then Ok(ParseLong(piece).value) else Err("For input string: \"" + piece + "\""))
  {
    var parts := Split(uriPath, '/');
    if |parts| < 3 then Err("Index 2 out of bounds for length " + IntToString(|parts|))
    else match ParseLong(parts[2])
      case None => Err("For input string: \"" + parts[2] + "\"")
      case Some(v) => Ok(v)
  }

  /** The path the handler is registered under yields back the id it was built from. */
  lemma ServerIdOfConsolePath(id: int)
    requires LongMin <= id <= LongMax
    ensures ServerIdOf("/console-socket/" + IntToString(id)) == Ok(id)
  {
    var d := IntToString(id);
    forall k | 0 <= k < |d|
      ensures d[k] != '/'
    {
      if id < 0 && k > 0 {
        assert d[k] == NatToString(-id)[k - 1];
      }
    }
    SplitThirdPiece("console-socket", d, "");
    assert "/" + "console-socket" + "/" + d + "" == "/console-socket/" + d;
    ParseLongOfIntToString(id);
  }

  /** The console can attach when the server exists and has a container id (possibly empty). */
  predicate Attachable(records: map<int, Server>, id: int)
  {
    id in records && records[id].containerId.Some?
  }

  function AttachCommand(containerId: string): seq<string>
  {
    ["docker", "attach", containerId]
  }

  /** Every live process is registered under some session. */
  ghost predicate NoOrphans(registry: map<string, nat>, processes: seq<AttachProcess>)
  {
    forall h :: 0 <= h < |processes| && processes[h].alive ==> h in registry.Values
  }

  class ConsoleSocketHandler {
    const serverRepository: ServerRepository
    /** Session id to the index, in `processes`, of that session's attach process. */
    var runningProcesses: map<string, nat>
    /** Every attach process the handler has started, in start order. */
    var processes: seq<AttachProcess>

    /** Each registered session points at its own, existing process. */
    ghost predicate Valid()
      reads this
    {
      && (forall s :: s in runningProcesses ==> runningProcesses[s] < |processes|)
      && (forall s, t :: s in runningProcesses && t in runningProcesses && s != t ==>
            runningProcesses[s] != runningProcesses[t])
    }

    constructor (serverRepository: ServerRepository)
      ensures Valid() && NoOrphans(runningProcesses, processes)
      ensures this.serverRepository == serverRepository
      ensures runningProcesses == map[] && processes == []
    {
      this.serverRepository := serverRepository;
      runningProcesses := map[];
      processes := [];
    }

    /**
     * `afterConnectionEstablished`. `sent` and `closed` are what was done to
     * the session. On success a new process attaches to the container and
     * is registered under the session id, replacing any earlier entry.
     */
    method AfterConnectionEstablished(sessionId: string, uriPath: string, start: StartOutcome)
      returns (result: Handshake, sent: seq<string>, closed: bool)
      requires Valid()
      modifies this
      ensures Valid()
      ensures ServerIdOf(uriPath).Err? ==>
        result == HandshakeFailed(ServerIdOf(uriPath).message) && sent == [] && !closed
        && runningProcesses == old(runningProcesses) && processes == old(processes)
      ensures ServerIdOf(uriPath).Ok? && !Attachable(serverRepository.records, ServerIdOf(uriPath).value) ==>
        result == Refused && sent == [Unavailable] && closed
        && runningProcesses == old(runningProcesses) && processes == old(processes)
      ensures ServerIdOf(uriPath).Ok? && Attachable(serverRepository.records, ServerIdOf(uriPath).value) && start.StartFailed? ==>
        result == HandshakeFailed(JavaStr(start.message)) && sent == [] && !closed
        && runningProcesses == old(runningProcesses) && processes == old(processes)
      ensures ServerIdOf(uriPath).Ok? && Attachable(serverRepository.records, ServerIdOf(uriPath).value) && start.Started? ==>
        var containerId := serverRepository.records[ServerIdOf(uriPath).value].containerId.value;
        && result == Attached && sent == [] && !closed
        && processes == old(processes) + [AttachProcess(AttachCommand(containerId), true, [])]
        && runningProcesses == old(runningProcesses)[sessionId := |old(processes)|]
      ensures sessionId !in old(runningProcesses) && NoOrphans(old(runningProcesses), old(processes)) ==>
        NoOrphans(runningProcesses, processes)
    {
      var id := ServerIdOf(uriPath);
      if id.Err? {
        return HandshakeFailed(id.message), [], false;
      }
      if !Attachable(serverRepository.records, id.value) {
        return Refused, [Unavailable], true;
      }
      var containerId := serverRepository.records[id.value].containerId.value;
      if start.StartFailed? {
        return HandshakeFailed(JavaStr(start.message)), [], false;
      }
      ghost var before := runningProcesses;
      var handle := |processes|;
      processes := processes + [AttachProcess(AttachCommand(containerId), true, [])];
      runningProcesses := runningProcesses[sessionId := handle];
      forall h | 0 <= h < |processes| && processes[h].alive && sessionId !in before && NoOrphans(before, old(processes))
        ensures h in runningProcesses.Values
      {
        if h == handle {
          assert runningProcesses[sessionId] == h;
        } else {
          assert old(processes)[h] == processes[h];
          var s :| s in before && before[s] == h;
          assert s != sessionId && runningProcesses[s] == h;
        }
      }
      return Attached, [], false;
    }

    /**
     * `handleTextMessage`: the payload and a newline go to the session's
     * process when it has one that is alive; a failed write (`writeFails`)
     * is swallowed. Nothing else changes.
     */
    method HandleTextMessage(sessionId: string, payload: string, writeFails: bool)
      requires Valid()
      modifies this
      ensures Valid()
      ensures runningProcesses == old(runningProcesses)
      ensures sessionId in runningProcesses && old(processes)[runningProcesses[sessionId]].alive && !writeFails ==>
        var h := runningProcesses[sessionId];
        processes == old(processes)[h := old(processes)[h].(stdin := old(processes)[h].stdin + [payload + "\n"])]
      ensures !(sessionId in runningProcesses && old(processes)[runningProcesses[sessionId]].alive && !writeFails) ==>
        processes == old(processes)
      ensures NoOrphans(old(runningProcesses), old(processes)) ==> NoOrphans(runningProcesses, processes)
    {
      if sessionId in runningProcesses && processes[runningProcesses[sessionId]].alive && !writeFails {
        var h := runningProcesses[sessionId];
        processes := processes[h := processes[h].(stdin := processes[h].stdin + [payload + "\n"])];
        assert forall k :: 0 <= k < |processes| ==> processes[k].alive == old(processes)[k].alive;
      }
    }

    /**
     * `afterConnectionClosed`: the session's entry is removed and its
     * process, if still alive, destroyed. Closing twice is harmless.
     */
    method AfterConnectionClosed(sessionId: string)
      requires Valid()
      modifies this
      ensures Valid()
      ensures runningProcesses == old(runningProcesses) - {sessionId}
      ensures sessionId in old(runningProcesses) ==>
        var h := old(runningProcesses)[sessionId];
        processes == old(processes)[h := old(processes)[h].(alive := false)]
      ensures sessionId !in old(runningProcesses) ==> processes == old(processes)
      ensures NoOrphans(old(runningProcesses), old(processes)) ==> NoOrphans(runningProcesses, processes)
    {
      if sessionId in runningProcesses {
        var h := runningProcesses[sessionId];
        ghost var before := runningProcesses;
        runningProcesses := runningProcesses - {sessionId};
        if processes[h].alive {
          processes := processes[h := processes[h].(alive := false)];
        }
        assert processes == old(processes)[h := old(processes)[h].(alive := false)];
        forall k | 0 <= k < |processes| && processes[k].alive && NoOrphans(before, old(processes))
          ensures k in runningProcesses.Values
        {
          assert k != h && old(processes)[k].alive;
          var s :| s in before && before[s] == k;
          assert s != sessionId;
          assert runningProcesses[s] == k;
        }
      }
    }

    /**
     * Not an operation of the handler: the attached container stops or
     * detaches on its own and its process ends.
     */
    method ProcessExited(handle: nat)
      requires Valid()
      modifies this
      ensures Valid()
      ensures runningProcesses == old(runningProcesses)
      ensures handle < |old(processes)| ==> processes == old(processes)[handle := old(processes)[handle].(alive := false)]
      ensures handle >= |old(processes)| ==> processes == old(processes)
      ensures NoOrphans(old(runningProcesses), old(processes)) ==> NoOrphans(runningProcesses, processes)
    {
      if handle < |processes| {
        processes := processes[handle := processes[handle].(alive := false)];
      }
    }
  }

  /**
   * The forwarding thread: each output line read is sent while
   * `session.isOpen()` holds, which it does for the first `openFor`
   * checks; a failed send ends the loop the same way. The line is read
   * before the check, so the line read when the session has closed is
   * consumed and dropped. `consumed` counts the lines read.
   */
  method ForwardOutput(lines: seq<string>, openFor: nat) returns (sent: seq<string>, consumed: nat)
    ensures sent <= lines
    ensures |sent| == if openFor < |lines| then openFor else |lines|
    ensures consumed == if openFor < |lines| then openFor + 1 else |lines|
  {
    sent := [];
    var i := 0;
    while i < |lines| && i < openFor
      invariant 0 <= i <= |lines| && i <= openFor
      invariant sent == lines[..i]
    {
      sent := sent + [lines[i]];
      i := i + 1;
    }
    consumed := if i < |lines| then i + 1 else i;
  }
}
