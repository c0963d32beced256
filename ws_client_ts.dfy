/**
 * The operator's websocket client in TypeScript (websocketClient.ts): the
 * connection flag kept by the socket's events, the guard on sending, and
 * `onMessage`, which registers a task for each START frame.
 *
 * A task is represented by the archive it was created from; the archive
 * last received is the file every START frame overwrites.
 */
module WsClientTs {
  import opened Wrappers
  import opened Text
  import Ws
  import TM = TaskMessages

  type Bytes = seq<byte>

  const START: Bytes := [83, 84, 65, 82, 84]    // "START"

  /**
   * The header of a frame: the bytes before the first '\n', split at every
   * space.  None when `onMessage` ignores the frame: no newline, fewer than
   * two parts, or an empty task id or type.  Otherwise the task id, the type
   * and every byte after the first newline.
   */
  function ReadHeader(data: Bytes): Option<(Bytes, Bytes, Bytes)>
  {
    match IndexOf(data, NL)
    case None => None
    case Some(nlPos) =>
      var parts := Split(data[..nlPos], SPACE);
      if |parts| < 2 || parts[0] == [] || parts[1] == [] then None
      else Some((parts[0], parts[1], data[nlPos + 1..]))
  }

  /** A word of a header: not empty, and no space or newline in it. */
  predicate Word(w: Bytes)
  {
    w != [] && SPACE !in w && NL !in w
  }

  /**
   * A header of space-separated words reads back as its first two words,
   * whatever words follow them; the payload is every byte after the header
   * line, newlines included.
   */
  lemma ReadHeaderOf(taskId: Bytes, typ: Bytes, more: seq<Bytes>, payload: Bytes)
    requires Word(taskId) && Word(typ)
    requires forall i :: 0 <= i < |more| ==> SPACE !in more[i] && NL !in more[i]
    ensures ReadHeader(Join([taskId, typ] + more, SPACE) + [NL] + payload) == Some((taskId, typ, payload))
  {
    var parts := [taskId, typ] + more;
    HeaderParts(taskId, typ, more);
    var header := Join(parts, SPACE);
    JoinAvoids(parts, SPACE, NL);
    SplitJoin(parts, SPACE);
    assert Split(header, SPACE) == parts;
    ReadHeaderAt(header, payload);
  }

  lemma HeaderParts(taskId: Bytes, typ: Bytes, more: seq<Bytes>)
    requires Word(taskId) && Word(typ)
    requires forall i :: 0 <= i < |more| ==> SPACE !in more[i] && NL !in more[i]
    ensures var parts := [taskId, typ] + more;
      forall i :: 0 <= i < |parts| ==> SPACE !in parts[i] && NL !in parts[i]
  {
    var parts := [taskId, typ] + more;
    forall i | 0 <= i < |parts| ensures SPACE !in parts[i] && NL !in parts[i] {
      if i >= 2 {
        assert parts[i] == more[i - 2];
      }
    }
  }

  /** The header line ends at the first newline. */
  lemma ReadHeaderAt(header: Bytes, payload: Bytes)
    requires NL !in header
    ensures var parts := Split(header, SPACE);
      ReadHeader(header + [NL] + payload) ==
        if |parts| < 2 || parts[0] == [] || parts[1] == [] then None
        else Some((parts[0], parts[1], payload))
  {
    var data := header + [NL] + payload;
    IndexOfAfter(header, NL, payload);
    assert data[..|header|] == header;
  }

  /** A frame whose header line is a single word, or empty, is ignored. */
  lemma ShortHeaderIgnored(header: Bytes, rest: Bytes)
    requires SPACE !in header && NL !in header
    ensures ReadHeader(header + [NL] + rest) == None
  {
    ReadHeaderAt(header, rest);
    SplitJoin([header], SPACE);
  }

  /** The client. */
  class Client {
    const uri: string
    /** The connection state the socket's events keep. */
    var connected: bool
    /** The registered tasks, by task id, each as the archive it was created from. */
    var tasks: map<Bytes, Bytes>
    /** The content of ./test0.tar.gz. */
    var archive: Option<Bytes>
    /** The messages handed to the socket, in order. */
    var sent: seq<string>

    constructor(uri: string)
      ensures this.uri == uri && !connected && tasks == map[] && archive == None && sent == []
    {
      this.uri := uri;
      connected := false;
      tasks := map[];
      archive := None;
      sent := [];
    }

    /** The 'open' event. */
    method OnOpen()
      modifies this
      ensures connected && tasks == old(tasks) && archive == old(archive) && sent == old(sent)
    {
      connected := true;
    }

    /** The 'close' and 'error' events. */
    method OnClose()
      modifies this
      ensures !connected && tasks == old(tasks) && archive == old(archive) && sent == old(sent)
    {
      connected := false;
    }

    /** `sendWebSocketMessage`: nothing is sent, and false returned, while not connected. */
    method SendWebSocketMessage(message: string) returns (ok: bool)
      modifies this
      ensures ok == old(connected)
      ensures sent == if ok then old(sent) + [message] else old(sent)
      ensures connected == old(connected) && tasks == old(tasks) && archive == old(archive)
    {
      if !connected {
        return false;
      }
      sent := sent + [message];
      return true;
    }

    /** `sendFullVerdict`. */
    method SendFullVerdict(taskId: string, verdict: string, data: string) returns (ok: bool)
      modifies this
      ensures ok == old(connected)
      ensures sent == if ok then old(sent) + [TM.FullVerdictMessage(taskId, verdict, data)] else old(sent)
      ensures connected == old(connected) && tasks == old(tasks) && archive == old(archive)
    {
      ok := SendWebSocketMessage(TM.FullVerdictMessage(taskId, verdict, data));
    }

    /** `sendSubtaskVerdict`. */
    method SendSubtaskVerdict(taskId: string, subtaskId: string, verdict: string, data: string) returns (ok: bool)
      modifies this
      ensures ok == old(connected)
      ensures sent == if ok then old(sent) + [TM.SubtaskVerdictMessage(taskId, subtaskId, verdict, data)] else old(sent)
      ensures connected == old(connected) && tasks == old(tasks) && archive == old(archive)
    {
      ok := SendWebSocketMessage(TM.SubtaskVerdictMessage(taskId, subtaskId, verdict, data));
    }

    /** `sendExited`. */
    method SendExited(taskId: string, exitCode: int, exitData: string) returns (ok: bool)
      modifies this
      ensures ok == old(connected)
      ensures sent == if ok then old(sent) + [TM.ExitedMessage(taskId, exitCode, exitData)] else old(sent)
      ensures connected == old(connected) && tasks == old(tasks) && archive == old(archive)
    {
      ok := SendWebSocketMessage(TM.ExitedMessage(taskId, exitCode, exitData));
    }

    /** `sendInvokerError`: an error of kind ERROR. */
    method SendInvokerError(taskId: string, errorMessage: string) returns (ok: bool)
      modifies this
      ensures ok == old(connected)
      ensures sent == if ok then old(sent) + [TM.ErrorMessage(taskId, TM.INVOKER_ERROR, errorMessage)] else old(sent)
      ensures connected == old(connected) && tasks == old(tasks) && archive == old(archive)
    {
      ok := SendWebSocketMessage(TM.ErrorMessage(taskId, TM.INVOKER_ERROR, errorMessage));
    }

    /** `sendOperatorError`: an error of kind OPERROR. */
    method SendOperatorError(taskId: string, errorMessage: string) returns (ok: bool)
      modifies this
      ensures ok == old(connected)
      ensures sent == if ok then old(sent) + [TM.ErrorMessage(taskId, TM.OPERATOR_ERROR, errorMessage)] else old(sent)
      ensures connected == old(connected) && tasks == old(tasks) && archive == old(archive)
    {
      ok := SendWebSocketMessage(TM.ErrorMessage(taskId, TM.OPERATOR_ERROR, errorMessage));
    }

    /**
     * `onMessage`: a START frame overwrites the archive file with its
     * payload, then registers the task unless its id is already taken;
     * every other frame changes nothing.
     */
    method OnMessage(data: Bytes)
      modifies this
      ensures match ReadHeader(data)
        case Some((taskId, typ, payload)) =>
          if typ == START then
            archive == Some(payload) &&
            tasks == if taskId in old(tasks) then old(tasks) else old(tasks)[taskId := payload]
          else archive == old(archive) && tasks == old(tasks)
        case None => archive == old(archive) && tasks == old(tasks)
      ensures connected == old(connected) && sent == old(sent)
    {
      var nl := IndexOf(data, NL);
      if nl.None? {
        return;
      }
      var nlPos := nl.value;
      var parts := Split(data[..nlPos], SPACE);
      if |parts| < 2 {
        return;
      }
      var taskId := parts[0];
      var typ := parts[1];
      if taskId == [] || typ == [] {
        return;
      }
      if typ == START {
        var tarData := data[nlPos + 1..];
        archive := Some(tarData);
        if taskId in tasks {
          return;
        }
        tasks := tasks[taskId := tarData];
      }
    }
  }
}
