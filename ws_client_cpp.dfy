/**
 * The operator's websocket client in C++ (websocketClient.cpp): the URI it
 * connects to, the connection flag kept by the socket's events, the guard on
 * sending, and `onMessage`, which registers a task for each START frame.
 *
 * Unlike the TypeScript client, `onMessage` reads the task id and the type as
 * the first two white-space separated words of the whole frame, and takes the
 * archive from behind the first "START\n" in the frame.
 */
module WsClientCpp {
  import opened Wrappers
  import opened Text
  import TM = TaskMessages
  import WsClientTs

  type Bytes = seq<byte>

  const START: Bytes := [83, 84, 65, 82, 84]    // "START"
  /** The marker the archive follows: "START\n". */
  const START_LINE: Bytes := START + [NL]

  // ------------------------------------------------------------------- URI

  /** Where `connect` resolves, connects and shakes hands. */
  datatype Endpoint = Endpoint(host: string, port: string, path: string)

  /**
   * The URI parse of `connect`: the scheme before the first "://" must be
   * "ws"; the endpoint is read from the rest.
   */
  function ParseUri(uri: string): Result<Endpoint, string>
  {
    match Find(uri, "://")
    case None => Failure("Invalid URI")
    case Some(pos) =>
      if uri[..pos] != "ws" then Failure("Only ws scheme supported")
      else Success(Locate(uri[pos + 3..]))
  }

  /**
   * The endpoint behind the scheme: the path starts at the first '/' ("/"
   * when there is none); the port follows the first ':' before the path (80
   * when there is none).
   */
  function Locate(hostPortPath: string): Endpoint
  {
    var (hostPort, path) :=
      match IndexOf(hostPortPath, '/')
      case None => (hostPortPath, "/")
      case Some(k) => (hostPortPath[..k], hostPortPath[k..]);
    match IndexOf(hostPort, ':')
    case None => Endpoint(hostPort, "80", path)
    case Some(k) => Endpoint(hostPort[..k], hostPort[k + 1..], path)
  }

  /** An endpoint a ws URI can name explicitly. */
  predicate Nameable(e: Endpoint)
  {
    ':' !in e.host && '/' !in e.host && '/' !in e.port && |e.path| > 0 && e.path[0] == '/'
  }

  /** The URI naming `e`, port included. */
  function Render(e: Endpoint): string
  {
    "ws://" + e.host + ":" + e.port + e.path
  }

  /** The first occurrence of `p` is at `i` when it occurs there and nowhere before. */
  lemma FindAt<T>(s: seq<T>, p: seq<T>, i: nat)
    requires OccursAt(s, p, i)
    requires forall j :: 0 <= j < i ==> !OccursAt(s, p, j)
    ensures Find(s, p) == Some(i)
  {
  }

  /** In a URI starting "ws://", the scheme is "ws" and the rest follows the first "://". */
  lemma ParseWs(rest: string)
    ensures Find("ws://" + rest, "://") == Some(2)
    ensures ("ws://" + rest)[..2] == "ws" && ("ws://" + rest)[5..] == rest
  {
    var uri := "ws://" + rest;
    assert uri[0] == 'w' && uri[1] == 's';
    assert uri[2..5] == "://";
    FindAt(uri, "://", 2);
  }

  /** Round trip: the parse recovers every nameable endpoint from its URI. */
  lemma ParseRender(e: Endpoint)
    requires Nameable(e)
    ensures ParseUri(Render(e)) == Success(e)
  {
    var rest := e.host + ":" + e.port + e.path;
    assert Render(e) == "ws://" + rest;
    ParseWs(rest);
    LocateOf(e);
  }

  lemma LocateOf(e: Endpoint)
    requires Nameable(e)
    ensures Locate(e.host + ":" + e.port + e.path) == e
  {
    var rest := e.host + ":" + e.port + e.path;
    var hostPort := e.host + ":" + e.port;
    assert rest == hostPort + ['/'] + e.path[1..];
    assert '/' !in hostPort;
    IndexOfAfter(hostPort, '/', e.path[1..]);
    assert rest[..|hostPort|] == hostPort && rest[|hostPort|..] == e.path;
    IndexOfAfter(e.host, ':', e.port);
  }

  /** Without a port, the port is 80; without a path, the path is "/". */
  lemma ParseDefaults(host: string, path: string)
    requires ':' !in host && '/' !in host
    requires path == [] || path[0] == '/'
    ensures ParseUri("ws://" + host + path) == Success(Endpoint(host, "80", if path == [] then "/" else path))
  {
    var rest := host + path;
    assert "ws://" + host + path == "ws://" + rest;
    ParseWs(rest);
    if path != [] {
      assert rest == host + ['/'] + path[1..];
      IndexOfAfter(host, '/', path[1..]);
      assert rest[..|host|] == host && rest[|host|..] == path;
    } else {
      assert rest == host;
    }
  }

  /** Any other scheme is refused. */
  lemma ParseOtherScheme(scheme: string, rest: string)
    requires ':' !in scheme && scheme != "ws"
    ensures ParseUri(scheme + "://" + rest) == Failure("Only ws scheme supported")
  {
    var uri := scheme + "://" + rest;
    assert uri[|scheme|..|scheme| + 3] == "://";
    forall j | 0 <= j < |scheme| ensures !OccursAt(uri, "://", j) {
      assert uri[j..j + 3][0] == uri[j] == scheme[j];
    }
    FindAt(uri, "://", |scheme|);
    assert uri[..|scheme|] == scheme;
  }

  /** Every endpoint the parse accepts is nameable: host without ':' or '/', port without '/', path from a '/'. */
  lemma ParsedNameable(uri: string)
    requires ParseUri(uri).Success?
    ensures Nameable(ParseUri(uri).value)
  {
    var pos := Find(uri, "://").value;
    LocatedNameable(uri[pos + 3..]);
  }

  lemma LocatedNameable(hostPortPath: string)
    ensures Nameable(Locate(hostPortPath))
  {
    var hostPort: string, path: string;
    match IndexOf(hostPortPath, '/')
    case None =>
      hostPort, path := hostPortPath, "/";
    case Some(k) =>
      hostPort, path := hostPortPath[..k], hostPortPath[k..];
    assert '/' !in hostPort;
    match IndexOf(hostPort, ':')
    case None =>
    case Some(k) =>
      assert hostPort == hostPort[..k] + hostPort[k..];
      assert hostPort[k + 1..] == hostPort[k..][1..];
  }

  // ---------------------------------------------------------------- words

  /** The first index from `i` on that is not white space. */
  function SkipSpace(s: Bytes, i: nat): (r: nat)
    requires i <= |s|
    ensures i <= r <= |s|
    decreases |s| - i
  {
    if i == |s| || !IsSpace(s[i]) then i else SkipSpace(s, i + 1)
  }

  /** The first index from `i` on that is white space, or the end. */
  function WordEnd(s: Bytes, i: nat): (r: nat)
    requires i <= |s|
    ensures i <= r <= |s|
    decreases |s| - i
  {
    if i == |s| || IsSpace(s[i]) then i else WordEnd(s, i + 1)
  }

  /** `stream >> word` from index `i`: the word (empty at the end of the stream) and where reading stops. */
  function ReadWord(s: Bytes, i: nat): (Bytes, nat)
    requires i <= |s|
  {
    var a := SkipSpace(s, i);
    var b := WordEnd(s, a);
    (s[a..b], b)
  }

  /** `stream >> taskId >> type`. */
  function FirstTwoWords(s: Bytes): (Bytes, Bytes)
  {
    var (first, i) := ReadWord(s, 0);
    var (second, _) := ReadWord(s, i);
    (first, second)
  }

  /** No white space in `w`. */
  predicate Solid(w: Bytes)
  {
    forall k :: 0 <= k < |w| ==> !IsSpace(w[k])
  }

  /** A word ends where the white space after it starts. */
  lemma {:induction false} WordEndOver(s: Bytes, i: nat, j: nat)
    requires i <= j <= |s| && Solid(s[i..j])
    requires j == |s| || IsSpace(s[j])
    ensures WordEnd(s, i) == j
    decreases j - i
  {
    if i < j {
      assert s[i] == s[i..j][0];
      assert s[i + 1..j] == s[i..j][1..];
      WordEndOver(s, i + 1, j);
    }
  }

  /** White space is skipped up to the next word. */
  lemma {:induction false} SkipSpaceOver(s: Bytes, i: nat, j: nat)
    requires i <= j <= |s|
    requires forall k :: i <= k < j ==> IsSpace(s[k])
    requires j == |s| || !IsSpace(s[j])
    ensures SkipSpace(s, i) == j
    decreases j - i
  {
    if i < j {
      SkipSpaceOver(s, i + 1, j);
    }
  }

  /** A word with white space before and after it is what `>>` reads. */
  lemma ReadWordAt(s: Bytes, i: nat, w: Bytes)
    requires i < |s| && IsSpace(s[i])
    requires w != [] && Solid(w) && i + 1 + |w| <= |s| && s[i + 1..i + 1 + |w|] == w
    requires i + 1 + |w| == |s| || IsSpace(s[i + 1 + |w|])
    ensures ReadWord(s, i) == (w, i + 1 + |w|)
  {
    assert s[i + 1] == w[0];
    SkipSpaceOver(s, i, i + 1);
    WordEndOver(s, i + 1, i + 1 + |w|);
  }

  /** A frame starting with a task id, a white-space byte and START reads as that id and START. */
  lemma FirstTwoWordsOf(id: Bytes, sep: byte, rest: Bytes)
    requires id != [] && Solid(id) && IsSpace(sep)
    requires rest != [] && IsSpace(rest[0])
    ensures FirstTwoWords(id + [sep] + START + rest) == (id, START)
  {
    var s := id + [sep] + START + rest;
    assert s[..|id|] == id;
    assert !IsSpace(s[0]) by { assert s[0] == id[0]; }
    SkipSpaceOver(s, 0, 0);
    WordEndOver(s, 0, |id|);
    assert ReadWord(s, 0) == (id, |id|);
    assert s[|id| + 1..|id| + 6] == START;
    assert s[|id| + 6] == rest[0];
    ReadWordAt(s, |id|, START);
  }

  // ----------------------------------------------------------- START frames

  /**
   * What `onMessage` does with a frame: None when it is ignored (no newline,
   * the second word is not START, or no "START\n" in it), otherwise the task
   * id and the archive, every byte behind the first "START\n".
   */
  function Registration(data: Bytes): Option<(Bytes, Bytes)>
  {
    if NL !in data then None
    else
      var (taskId, typ) := FirstTwoWords(data);
      if typ != START then None
      else
        match Find(data, START_LINE)
        case None => None
        case Some(p) => Some((taskId, data[p + |START_LINE|..]))
  }

  /** The first "START\n" of a frame `id sep START \n payload` is the one behind the id. */
  lemma StartLineAt(id: Bytes, sep: byte, payload: Bytes)
    requires Solid(id) && IsSpace(sep)
    requires sep != NL || |id| < 5 || id[|id| - 5..] != START
    ensures Find(id + [sep] + START + [NL] + payload, START_LINE) == Some(|id| + 1)
  {
    var s := id + [sep] + START + [NL] + payload;
    assert s[|id| + 1..|id| + 7] == START_LINE;
    forall j | 0 <= j < |id| + 1 ensures !OccursAt(s, START_LINE, j) {
      assert s[j..j + 6][5] == s[j + 5];
      if j + 5 < |id| {
        assert s[j + 5] == id[j + 5];
      } else if j + 5 == |id| {
        assert s[j + 5] == sep;
        assert s[j..j + 6][..5] == s[j..j + 5] == id[|id| - 5..];
      } else {
        assert s[j + 5] == START[j + 4 - |id|];
      }
    }
    FindAt(s, START_LINE, |id| + 1);
  }

  /** A frame `id sep START \n payload` registers task `id` with archive `payload`. */
  lemma RegistrationOf(id: Bytes, sep: byte, payload: Bytes)
    requires id != [] && Solid(id) && IsSpace(sep)
    requires sep != NL || |id| < 5 || id[|id| - 5..] != START
    ensures Registration(id + [sep] + START + [NL] + payload) == Some((id, payload))
  {
    var s := id + [sep] + START + [NL] + payload;
    assert s == id + [sep] + START + ([NL] + payload);
    FirstTwoWordsOf(id, sep, [NL] + payload);
    assert s[|id| + 6] == NL;
    StartLineAt(id, sep, payload);
    assert s[|id| + 1 + |START_LINE|..] == payload;
  }

  /** On the frame the invoker's operator protocol sends, `id START\n<archive>`, both clients register the same task. */
  lemma ClientsAgree(id: Bytes, payload: Bytes)
    requires id != [] && Solid(id)
    ensures WsClientTs.ReadHeader(id + [SPACE] + START + [NL] + payload) == Some((id, START, payload))
    ensures Registration(id + [SPACE] + START + [NL] + payload) == Some((id, payload))
  {
    assert Join([id, START], SPACE) == id + [SPACE] + START by {
      assert [id, START][1..] == [START];
    }
    assert [id, START] + [] == [id, START];
    WsClientTs.ReadHeaderOf(id, START, [], payload);
    RegistrationOf(id, SPACE, payload);
  }

  /** With a newline between the id and START, the C++ client registers the task and the TypeScript client ignores the frame. */
  lemma ClientsDisagree(id: Bytes, payload: Bytes)
    requires id != [] && Solid(id) && (|id| < 5 || id[|id| - 5..] != START)
    ensures WsClientTs.ReadHeader(id + [NL] + START + [NL] + payload) == None
    ensures Registration(id + [NL] + START + [NL] + payload) == Some((id, payload))
  {
    assert SPACE !in id && NL !in id by {
      assert forall k :: 0 <= k < |id| ==> !IsSpace(id[k]);
    }
    assert id + [NL] + START + [NL] + payload == id + [NL] + (START + [NL] + payload);
    WsClientTs.ShortHeaderIgnored(id, START + [NL] + payload);
    RegistrationOf(id, NL, payload);
  }

  // ----------------------------------------------------------------- client

  /** How a read on the socket completes. */
  datatype ReadEvent = Frame(data: Bytes) | ClosedByPeer | ReadFailed

  /** The client. */
  class Client {
    const uri: string
    /** `connected_`. */
    var connected: bool
    /** `tasks_`: the registered tasks, by task id, each as the archive it was created from. */
    var tasks: map<Bytes, Bytes>
    /** The content of ./test0.tar.gz. */
    var archive: Option<Bytes>
    /** The messages handed to the socket, in order. */
    var sent: seq<string>

    constructor(uri: string)
      ensures this.uri == uri && !connected && tasks == map[] && archive == None && sent == []
    {
      this.uri := uri;
      connected := false;
      tasks := map[];
      archive := None;
      sent := [];
    }

    /**
     * `connect`: false when the URI does not parse or `reachable` (resolving,
     * connecting and the handshake) fails for its endpoint; connected otherwise.
     */
    method Connect(reachable: Endpoint -> bool) returns (ok: bool)
      modifies this
      ensures ok == (ParseUri(uri).Success? && reachable(ParseUri(uri).value))
      ensures connected == (ok || old(connected))
      ensures tasks == old(tasks) && archive == old(archive) && sent == old(sent)
    {
      var endpoint := ParseUri(uri);
      if endpoint.Failure? || !reachable(endpoint.value) {
        return false;
      }
      connected := true;
      return true;
    }

    /** `onOpen`. */
    method OnOpen()
      modifies this
      ensures connected && tasks == old(tasks) && archive == old(archive) && sent == old(sent)
    {
      connected := true;
    }

    /** `onClose`. */
    method OnClose()
      modifies this
      ensures !connected && tasks == old(tasks) && archive == old(archive) && sent == old(sent)
    {
      connected := false;
    }

    /** `onFail`. */
    method OnFail()
      modifies this
      ensures !connected && tasks == old(tasks) && archive == old(archive) && sent == old(sent)
    {
      connected := false;
    }

    /**
     * `onMessage`: a frame whose second word is START overwrites the archive
     * file with what follows its first "START\n", then registers the task
     * unless its id is already taken; every other frame changes nothing.
     */
    method OnMessage(data: Bytes)
      modifies this
      ensures match Registration(data)
        case Some((taskId, tar)) =>
          archive == Some(tar) &&
          tasks == if taskId in old(tasks) then old(tasks) else old(tasks)[taskId := tar]
        case None => archive == old(archive) && tasks == old(tasks)
      ensures connected == old(connected) && sent == old(sent)
    {
      if NL !in data {
        return;
      }
      var (taskId, typ) := FirstTwoWords(data);
      if typ != START {
        return;
      }
      var startPos := Find(data, START_LINE);
      if startPos.Some? {
        var tar := data[startPos.value + |START_LINE|..];
        archive := Some(tar);
        if taskId in tasks {
          return;
        }
        tasks := tasks[taskId := tar];
      }
    }

    /** The read loop's completion handler: a frame goes to `onMessage`, a close to `onClose`, any other error to `onFail`. */
    method OnRead(event: ReadEvent)
      modifies this
      ensures event.Frame? ==> match Registration(event.data)
        case Some((taskId, tar)) =>
          archive == Some(tar) &&
          tasks == if taskId in old(tasks) then old(tasks) else old(tasks)[taskId := tar]
        case None => archive == old(archive) && tasks == old(tasks)
      ensures connected == (event.Frame? && old(connected))
      ensures !event.Frame? ==> tasks == old(tasks) && archive == old(archive)
      ensures sent == old(sent)
    {
      match event
      case Frame(data) => OnMessage(data);
      case ClosedByPeer => OnClose();
      case ReadFailed => OnFail();
    }

    /** `sendWebSocketMessage`: nothing is sent, and false returned, while not connected. */
    method SendWebSocketMessage(message: string) returns (ok: bool)
      modifies this
      ensures ok == old(connected)
      ensures sent == if ok then old(sent) + [message] else old(sent)
      ensures connected == old(connected) && tasks == old(tasks) && archive == old(archive)
    {
      if !connected {
        return false;
      }
      sent := sent + [message];
      return true;
    }

    /** `sendFullVerdict`. */
    method SendFullVerdict(taskId: string, verdict: string, data: string) returns (ok: bool)
      modifies this
      ensures ok == old(connected)
      ensures sent == if ok then old(sent) + [TM.FullVerdictMessage(taskId, verdict, data)] else old(sent)
      ensures connected == old(connected) && tasks == old(tasks) && archive == old(archive)
    {
      ok := SendWebSocketMessage(TM.FullVerdictMessage(taskId, verdict, data));
    }

    /** `sendSubtaskVerdict`. */
    method SendSubtaskVerdict(taskId: string, subtaskId: string, verdict: string, data: string) returns (ok: bool)
      modifies this
      ensures ok == old(connected)
      ensures sent == if ok then old(sent) + [TM.SubtaskVerdictMessage(taskId, subtaskId, verdict, data)] else old(sent)
      ensures connected == old(connected) && tasks == old(tasks) && archive == old(archive)
    {
      ok := SendWebSocketMessage(TM.SubtaskVerdictMessage(taskId, subtaskId, verdict, data));
    }

    /** `sendExited`. */
    method SendExited(taskId: string, exitCode: int, exitData: string) returns (ok: bool)
      modifies this
      ensures ok == old(connected)
      ensures sent == if ok then old(sent) + [TM.ExitedMessage(taskId, exitCode, exitData)] else old(sent)
      ensures connected == old(connected) && tasks == old(tasks) && archive == old(archive)
    {
      ok := SendWebSocketMessage(TM.ExitedMessage(taskId, exitCode, exitData));
    }

    /** `sendInvokerError`: an error of kind ERROR. */
    method SendInvokerError(taskId: string, errorMessage: string) returns (ok: bool)
      modifies this
      ensures ok == old(connected)
      ensures sent == if ok then old(sent) + [TM.ErrorMessage(taskId, TM.INVOKER_ERROR, errorMessage)] else old(sent)
      ensures connected == old(connected) && tasks == old(tasks) && archive == old(archive)
    {
      ok := SendWebSocketMessage(TM.ErrorMessage(taskId, TM.INVOKER_ERROR, errorMessage));
    }

    /** `sendOperatorError`: an error of kind OPERROR. */
    method SendOperatorError(taskId: string, errorMessage: string) returns (ok: bool)
      modifies this
      ensures ok == old(connected)
      ensures sent == if ok then old(sent) + [TM.ErrorMessage(taskId, TM.OPERATOR_ERROR, errorMessage)] else old(sent)
      ensures connected == old(connected) && tasks == old(tasks) && archive == old(archive)
    {
      ok := SendWebSocketMessage(TM.ErrorMessage(taskId, TM.OPERATOR_ERROR, errorMessage));
    }
  }
}
