# invoker — a verified model of the judge and its operator protocols

The repository is an online-judge "invoker". The Rust program receives
submissions from a manager over a websocket, compiles and runs them inside
`isolate` sandboxes, judges every test and reports verdicts and a score. An
older C++/TypeScript layer lets an "operator" program drive containers over a
Unix socket. The model follows the code.

What is modelled, one Dafny module per source file or concern:

- **Frame codec** of the operator socket (`Framing`, `SocketCpp`, `SocketTs`):
  a 4-byte length (little-endian, see "## Left out") and the payload; the reader appends every read
  to a buffer and cuts complete frames off its front in a loop. The reader is
  proved to deliver exactly the written payloads, in order, however the bytes
  are split into reads.
- **Manager protocols**: the key/value message body of
  `src/server/websocket.rs` (`RawMsg`), the older newline-command protocol of
  `src/ws.rs` (`Ws`), and the taskId-prefixed messages of the websocket clients
  (`TaskMessages`, `WsClientTs`, `WsClientCpp`), with the `ws://` address split.
- **Operator protocol**: the command parsers `Session.onData` of `session.ts`
  and `session.cpp` (`SessionTs`, `SessionCpp`, the latter over a model of a
  C++ input stream, and `PosixPath` for the `path.join` that places volume
  directories), the emitters `OperatorApi` of `lib/operatorApi.cpp` and
  `save/operatorApi.cpp` (`OperatorMessages`, `OperatorApiLib`,
  `OperatorApiSave`), and what each parser makes of each emitter's messages
  (`OperatorProtocol`).
- **Sandbox layer** (`SandboxCommand`, `Sandbox`): the `Command` builder, the isolate
  meta-file parser, the run-status classification and the argument vector of
  `Sandbox::run`.
- **Judge decisions** (`Judge`, `JudgeStandard`, `JudgeInteractive`,
  `JudgeDoubleRun`, `JudgeTestRunner`, `JudgeGroups`, `JudgeLegacy`): verdicts
  from run statuses and checker exit codes, compile classification, command
  templates and paths, and group blocking and scoring, with the concurrent test
  loop modelled as a sequential schedule-run-record loop.
- **In-memory tar index** (`TarIndex`, `TarCpp`, `TarTs`): `list`, `extract`,
  `insert` and `contains` over the path-to-content and path-to-directory maps.
- **Log context** (`LogUtils`, `Logger`): the persistent key/value list and its
  rendering.

`Wrappers` (Option and Result) and `Text` (integer printing and parsing,
splitting and joining, white space, UTF-8) are shared helpers.

Effects are parameters: the bytes a socket delivers, the result of a sandbox
run, the exit codes of checkers and interactors, the outcome of a connection
attempt. Callbacks that user code registers are modelled by recording what they
would be called with.

## Model

| member | source | states |
|---|---|---|
| LogUtils.New | src/log_utils.rs:4-6 | the new context holds no pairs and renders as the empty text |
| LogUtils.Push | src/log_utils.rs:7-13 | the new context's pairs are the old ones plus (key, value) at the end, and it points at the old context, which is unchanged |
| LogUtils.RenderPush | src/log_utils.rs:16-24 | rendering a pushed context appends a space and `key<value>` to the rendering of the old one |
| LogUtils.RenderIsSpacedItems | src/log_utils.rs:16-24 | a context renders as " k1<v1> k2<v2> …": every pair in push order, each with a space in front, the first one included |
| Logger.New | src/logger.rs:6-8 | the new context holds no pairs and renders as the empty text |
| Logger.Push | src/logger.rs:9-15 | the new context's pairs are the old ones plus (key, value) at the end, and it points at the old context |
| Logger.RenderIsJoin | src/logger.rs:18-28 | a context renders as its `key<value>` items in push order joined by single spaces |
| Logger.NoLeadingSpace | src/logger.rs:20-23 | a non-empty rendering never starts with a space: the separator is written only after a non-empty previous context |
| Logger.LeadingSpaceOnlyInLogUtils | src/logger.rs:18-28 | the same pairs rendered by the older log_utils.rs carry exactly one extra leading space |
| Framing.EncodeLength | lib/lib/socket.cpp:15-20 | the header is four bytes |
| Framing.LengthRoundTrip | lib/lib/socket.cpp:15-20 | the header decodes to the payload length modulo 2^32 (the `uint32_t` cast) |
| Framing.HeaderRoundTrip | lib/lib/socket.cpp:69-70 | any four header bytes decode to a length that encodes back to those bytes |
| Framing.DecodeLength | lib/lib/socket.cpp:69-70 | the length read from a header is below 2^32 |
| Framing.Frame | lib/lib/socket.cpp:13-26 | a frame is four bytes longer than its payload |
| Framing.FrameParts | lib/lib/socket.cpp:13-26 | a frame carries its payload unchanged after the header, and the header announces the payload length modulo 2^32 |
| Framing.Deframe | lib/lib/socket.cpp:64-84 | the reassembly loop stops only when the buffer no longer starts with a complete frame |
| Framing.DeframeSound | lib/lib/socket.cpp:64-84 | the delivered payloads, framed again, followed by what stays buffered, are exactly the buffer |
| Framing.DeframeFramable | lib/lib/socket.cpp:69-79 | every delivered payload is shorter than 2^32 bytes |
| Framing.DeframeAppend | lib/lib/socket.cpp:64-84 | bytes appended to a buffer do not change the frames it already completes |
| Framing.DeframeStep | lib/lib/socket.cpp:73-79 | a complete frame at the front is delivered first, then the rest of the buffer is processed |
| Framing.DeframeFrames | lib/lib/socket.cpp:64-84 | frames written one after another are cut back into the same payloads, in order |
| Framing.RoundTrip | lib/lib/socket.cpp:13-26 | the bytes of written frames deframe to exactly the written payloads with nothing left buffered |
| Framing.EmptyPayload | lib/lib/socket.cpp:15-22 | an empty payload is framed as four zero bytes and delivered as one empty message |
| Framing.FeedIsDeframe | lib/lib/socket.cpp:62-84 | reading chunk by chunk delivers what one read of all the bytes would, from a buffer holding no complete frame |
| Framing.ChunkedRoundTrip | lib/lib/socket.cpp:62-84 | however the written frames are split into reads, exactly the written payloads are delivered, in order, and nothing stays buffered |
| SocketCpp.Connection.constructor | lib/lib/socket.cpp:7-9 | a connection starts with an empty buffer, no callbacks and nothing delivered or written |
| SocketCpp.Connection.Write | lib/lib/socket.cpp:13-26 | the bytes written are the old ones followed by the frame of the data |
| SocketCpp.Connection.OnData | lib/lib/socket.cpp:51-55 | the callback is stored; reading starts once, and only on a connected stream |
| SocketCpp.Connection.OnRead | lib/lib/socket.cpp:62-84 | the buffer becomes what deframing the old buffer plus the chunk leaves, the delivered payloads grow by the frames it completes when a data callback is set, and the buffer never starts with a complete frame |
| SocketCpp.Connection.OnConnected | lib/lib/socket.cpp:105-110 | the connected callback is stored and run at once when already connected |
| SocketCpp.Connection.ConnectSucceeded | lib/lib/socket.cpp:185-237 | a successful connect marks the connection connected, runs the connected callback if set, and starts reading if a data callback is set; its reads go through the same reassembly loop as `OnRead` |
| SocketTs.Connection.constructor | socket.ts:19-30 | a connection starts with an empty buffer, no callbacks and nothing delivered or written |
| SocketTs.Connection.AppendToBuffer | socket.ts:32-37 | the buffer becomes the old bytes followed by the new ones |
| SocketTs.Connection.ProcessBuffer | socket.ts:39-48 | the buffer becomes what deframing leaves, and the completed frames are delivered when a data callback is set |
| SocketTs.Connection.OnSocketData | socket.ts:134-138 | appending then processing delivers the frames completed by the old buffer plus the chunk |
| SocketTs.Connection.Write | socket.ts:50-57 | without a socket nothing is written, else the little-endian length and the payload |
| SocketTs.Connection.WriteText | socket.ts:50-57 | a string is framed as its UTF-8 encoding |
| SocketTs.Connection.OnData | socket.ts:63-65 | the callback is only stored |
| SocketTs.Connection.OnConnected | socket.ts:71-74 | the callback is stored and invoked if and only if the connection is already connected |
| SocketTs.Connection.OnOpen | socket.ts:129-133 | the client's open handler marks the connection connected and runs the connected callback if set |
| RawMsg.SplitLineIsSplitOnce | src/server/websocket.rs:49-53 | a line is cut at its first space and both halves are trimmed; a line without a space is all key and an empty value |
| RawMsg.LineEndIsIndexOf | src/server/websocket.rs:42 | the line end found is the first newline in the buffer |
| RawMsg.Decode | src/server/websocket.rs:61-63 | a body that does not parse fails only with the missing-type error |
| RawMsg.TryFrom | src/server/websocket.rs:38-70 | the loop that cuts the buffer line by line computes the body `Decode` describes |
| RawMsg.Body.constructor | src/server/websocket.rs:74-80 | a new body has the given type, no fields and no data |
| RawMsg.Body.AddField | src/server/websocket.rs:93-97 | the field is appended last, everything else unchanged |
| RawMsg.Body.AddFields | src/server/websocket.rs:98-103 | the fields are appended last in the order given |
| RawMsg.Body.SetData | src/server/websocket.rs:104-107 | the data are replaced, everything else unchanged |
| RawMsg.Body.IntoBytes | src/server/websocket.rs:81-91 | the bytes are the TYPE line, one `k v` line per field in order, then DATA and the data when set |
| RawMsg.SplitLineOf | src/server/websocket.rs:49-53 | a written `k v` line with a well-formed key and value splits back into that key and value |
| RawMsg.ScanLine | src/server/websocket.rs:54-58 | reading one written line: a TPYE line sets the type, any other line is kept as a field |
| RawMsg.ScanFieldLines | src/server/websocket.rs:41-59 | reading written field lines keeps every non-TPYE field in order and takes the type from the last TPYE field |
| RawMsg.DataLineTakesRest | src/server/websocket.rs:55 | a line whose key is DATA ends the parse and every byte after it is the data, verbatim |
| RawMsg.ScanDataPart | src/server/websocket.rs:86-89 | the written DATA part reads back as the same data, or as none |
| RawMsg.TypeKeysOk | src/server/websocket.rs:56 | TYPE and TPYE are distinct well-formed keys, both distinct from DATA |
| RawMsg.ScanEncoded | src/server/websocket.rs:38-91 | what the reader makes of a well-formed body written with a given key on its type line |
| RawMsg.ScanEncodedAsWritten | src/server/websocket.rs:82 | a body written by `into_bytes` reads back with its TYPE line as an ordinary field |
| RawMsg.DecodeEncode | src/server/websocket.rs:56 | a written body parses if and only if one of its fields is literally named TPYE, whose last value becomes the type |
| RawMsg.EncodedTypeReadAsField | src/server/websocket.rs:56-63 | a written body without a TPYE field fails with the missing-type error, its type turning up as a field named TYPE |
| RawMsg.ReaderFormatRoundTrip | src/server/websocket.rs:38-91 | written with TPYE on the type line, every well-formed body reads back unchanged |
| RawMsg.UnterminatedLeavesNoData | src/server/websocket.rs:42-44 | bytes after the last newline are ignored: without a DATA line they change neither the result nor the absent data |
| RawMsg.Index | src/server/websocket.rs:109-121 | every key maps to a position that holds that key, and every field's key is indexed |
| RawMsg.IndexIsLast | src/server/websocket.rs:112-117 | later positions overwrite earlier ones: a key is indexed at its last occurrence |
| RawMsg.Field | src/server/websocket.rs:129-131 | a field is found if and only if its name is indexed |
| RawMsg.FieldEq | src/server/websocket.rs:132-137 | field_eq holds only for a present field |
| RawMsg.FieldOfBody | src/server/websocket.rs:109-137 | a name is absent if and only if no field has it, `field` gives the value of its last occurrence, and `field_eq` compares that value |
| RawMsg.Classify | src/server/websocket.rs:288-320 | a frame that does not parse is skipped, and START and AUTH_CHALLENGE carry the body's data |
| RawMsg.ClassifyServerFrame | src/server/websocket.rs:296-320 | every incoming message, written in the reader's format, is received as itself |
| RawMsg.Outcome | src/server/websocket.rs:281-287 | a failed read fails `recv` with its error, and a frame read is classified |
| RawMsg.NextMessage | src/server/websocket.rs:280-324 | recv returns the first frame that classifies or the first failed read, every frame before it having been skipped |
| RawMsg.NextMessageAfterSkips | src/server/websocket.rs:290-319 | skipped frames at the front only add to the count of frames consumed |
| RawMsg.Recv | src/server/websocket.rs:280-324 | the read-skip-return loop computes `NextMessage` over the read outcomes |
| RawMsg.Send | src/server/websocket.rs:186-276 | the frame sent is the encoding of the type and fields each message is given |
| RawMsg.SentFramesUnreadable | src/server/websocket.rs:56-82 | no frame `send` writes parses with this reader, since none carries a TPYE field |
| RawMsg.TestVerdictKey | src/server/websocket.rs:233-240 | a test verdict goes out under the key VERDCIT: a reader asking for VERDICT finds nothing |
| Ws.Dispatch | src/ws.rs:77-87 | a trimmed command line names START (with the bytes after it as data), STOP or CLOSE exactly when it is that word |
| Ws.NoNewlineSkipped | src/ws.rs:70-72 | a frame without a newline is skipped |
| Ws.CommandOfFirstLine | src/ws.rs:70-87 | the command is the first line, trimmed, and the data are every byte after its newline |
| Ws.TrimEndOfNewline | src/ws.rs:74-77 | the newline ending the command line is trimmed with the rest of the white space |
| Ws.BareCommand | src/ws.rs:74-87 | a command line holding exactly a word names that word |
| Ws.StartCommand | src/ws.rs:78-80 | "START", a newline and a payload read as Start with that payload |
| Ws.StopCommand | src/ws.rs:81 | "STOP" and a newline read as Stop, whatever follows |
| Ws.CloseCommand | src/ws.rs:82 | "CLOSE" and a newline read as Close, whatever follows |
| Ws.Outcome | src/ws.rs:61-68 | a failed read fails `recv` with its error; a frame read is turned into its command |
| Ws.NextCommand | src/ws.rs:59-90 | recv returns the first frame naming a command or the first failed read, every frame before it having been skipped; a stream that ends first is an error |
| Ws.Answer | src/ws.rs:61-67 | the caller sees the message, the read error, or "websocket connection was closed" |
| Ws.NextCommandAfterSkips | src/ws.rs:70-86 | skipped frames at the front only add to the count of frames consumed |
| Ws.Recv | src/ws.rs:59-90 | the read-skip-return loop computes `NextCommand` over the read outcomes |
| Ws.Decimal | src/ws.rs:46-51 | a number read back prints as the text it was read from |
| Ws.ParseFormat | src/ws.rs:37-55 | every answer whose verdict stays on one line reads back as itself: the five formats are told apart by their first line |
| Ws.FormatParse | src/ws.rs:37-55 | conversely, any text the reader accepts is exactly the text `send` writes for the message it reads |
| Ws.ParseSubTaskVerdict | src/ws.rs:41-49 | a subtask verdict, its id in decimal and its verdict on a second line, reads back as itself |
| Ws.ParseExited | src/ws.rs:50-52 | an exit message with its code in decimal reads back as itself |
| TaskMessages.TaskMessageIsInvokerText | websocketClient.ts:52-66 | every client message is the invoker's own text for the same message (src/ws.rs) behind a task-id line, less the closing newline |
| TaskMessages.ReadTaskMessageOf | websocketClient.ts:52-66 | a reader recovers the task id and the message from every client message |
| TaskMessages.TaskMessageOfRead | websocketClient.ts:52-66 | conversely, whatever that reader accepts is exactly the text a client writes for what it read |
| WsClientTs.ReadHeaderOf | websocketClient.ts:90-100 | a header of space-separated words reads back as its first two words, whatever follows them, and the payload is every byte after the header line |
| WsClientTs.ReadHeaderAt | websocketClient.ts:90-100 | the header is the line up to the first newline; fewer than two words or an empty first or second word is ignored |
| WsClientTs.ShortHeaderIgnored | websocketClient.ts:96-97 | a header line of a single word, or an empty one, is ignored |
| WsClientTs.Client.constructor | websocketClient.ts:11-16 | a new client is not connected and has no tasks |
| WsClientTs.Client.OnOpen | websocketClient.ts:20-23 | the open event marks the client connected and changes nothing else |
| WsClientTs.Client.OnClose | websocketClient.ts:24-32 | the close and error events mark the client disconnected and change nothing else |
| WsClientTs.Client.SendWebSocketMessage | websocketClient.ts:43-50 | the message is sent and true returned if and only if the client is connected |
| WsClientTs.Client.SendFullVerdict | websocketClient.ts:68-70 | sends the full-verdict text when connected, returning whether it did |
| WsClientTs.Client.SendSubtaskVerdict | websocketClient.ts:72-74 | sends the subtask-verdict text when connected, returning whether it did |
| WsClientTs.Client.SendExited | websocketClient.ts:76-78 | sends the exit text when connected, returning whether it did |
| WsClientTs.Client.SendInvokerError | websocketClient.ts:80-82 | sends an ERROR message when connected, returning whether it did |
| WsClientTs.Client.SendOperatorError | websocketClient.ts:84-86 | sends an OPERROR message when connected, returning whether it did |
| WsClientTs.Client.OnMessage | websocketClient.ts:88-111 | a START frame overwrites the archive with its payload and registers the task unless the id is taken; every other frame changes nothing |
| WsClientCpp.FindAt | websocketClient.cpp:31 | `find` gives the first occurrence of the pattern |
| WsClientCpp.ParseWs | websocketClient.cpp:31-35 | in a URI starting "ws://" the scheme is "ws" and the rest is everything after the first "://" |
| WsClientCpp.ParseRender | websocketClient.cpp:28-41 | the URI split recovers host, port and path from the URI naming them |
| WsClientCpp.LocateOf | websocketClient.cpp:36-41 | host, ':' port and path split back into those three |
| WsClientCpp.ParseDefaults | websocketClient.cpp:37-41 | without a port the port is "80", and without a path the path is "/" |
| WsClientCpp.ParseOtherScheme | websocketClient.cpp:33-34 | any scheme other than "ws" is refused with "Only ws scheme supported" |
| WsClientCpp.ParsedNameable | websocketClient.cpp:35-41 | every accepted endpoint has a host without ':' or '/', a port without '/', and a path starting with '/' |
| WsClientCpp.SkipSpace | websocketClient.cpp:128 | skipping white space moves forward and stays inside the text |
| WsClientCpp.WordEnd | websocketClient.cpp:128 | a word's end is at or after its start and inside the text |
| WsClientCpp.ReadWordAt | websocketClient.cpp:128 | a word with white space before and after it is what `>>` reads, and reading stops after the white space that ends it |
| WsClientCpp.FirstTwoWordsOf | websocketClient.cpp:126-128 | a frame starting with a task id, one white-space byte and START reads as that id and START |
| WsClientCpp.StartLineAt | websocketClient.cpp:131-135 | the first "START\n" of such a frame is the one behind the id |
| WsClientCpp.RegistrationOf | websocketClient.cpp:117-146 | a frame `id START\n payload` registers task `id` with every byte after "START\n" as its archive |
| WsClientCpp.ClientsAgree | websocketClient.cpp:117-146 | on a frame `id START\n<archive>` the C++ and the TypeScript clients register the same task with the same archive |
| WsClientCpp.ClientsDisagree | websocketClient.cpp:125-128 | with a newline between the id and START the C++ client still registers the task, since it reads the whole frame word by word, while the TypeScript client ignores the frame |
| WsClientCpp.Client.constructor | websocketClient.cpp:22 | a new client is not connected and has no tasks |
| WsClientCpp.Client.Connect | websocketClient.cpp:28-68 | connecting succeeds if and only if the URI parses and the endpoint it names can be reached; success marks the client connected |
| WsClientCpp.Client.OnOpen | websocketClient.cpp:107-110 | marks the client connected and changes nothing else |
| WsClientCpp.Client.OnClose | websocketClient.cpp:112-115 | marks the client disconnected and changes nothing else |
| WsClientCpp.Client.OnFail | websocketClient.cpp:149-152 | marks the client disconnected and changes nothing else |
| WsClientCpp.Client.OnMessage | websocketClient.cpp:117-147 | a frame whose second word is START, with a "START\n" in it, overwrites the archive with what follows and registers the task unless the id is taken; every other frame changes nothing |
| WsClientCpp.Client.OnRead | websocketClient.cpp:89-105 | a frame read goes to `onMessage`, a close to `onClose`, any other error to `onFail` |
| WsClientCpp.Client.SendWebSocketMessage | websocketClient.cpp:158-173 | the message is sent and true returned if and only if the client is connected |
| WsClientCpp.Client.SendFullVerdict | websocketClient.cpp:175-181 | sends the full-verdict text when connected, returning whether it did |
| WsClientCpp.Client.SendSubtaskVerdict | websocketClient.cpp:183-190 | sends the subtask-verdict text when connected, returning whether it did |
| WsClientCpp.Client.SendExited | websocketClient.cpp:192-198 | sends the exit text when connected, returning whether it did |
| WsClientCpp.Client.SendInvokerError | websocketClient.cpp:223-226 | sends an ERROR message when connected, returning whether it did |
| WsClientCpp.Client.SendOperatorError | websocketClient.cpp:228-231 | sends an OPERROR message when connected, returning whether it did |
| SessionTs.HexRun | session.ts:66 | the leading hexadecimal digits are a prefix of the text, all of them hexadecimal |
| SessionTs.MagnitudeOf | session.ts:66 | `parseInt` reads the decimal digits of a number back as that number when what follows cannot continue it |
| SessionTs.ParseIntOf | session.ts:66-67 | `parseInt` reads back the decimal text of every integer, negative ones included, whatever non-digit follows |
| SessionTs.ParseIntOfText | session.ts:66-67 | `parseInt` reads the decimal text of an integer alone as that integer |
| SessionTs.ParseIntHex | session.ts:66 | a number written after "0x" is read in hexadecimal |
| SessionTs.KeywordOfSpelling | session.ts:61-155 | every command and sub-option word is told apart by its spelling |
| SessionTs.ReadOptions | session.ts:77-115 | the sub-option loop, advancing through the header words and the body lines together, computes what `Scan` describes, dropping the message where a word or a line is missing |
| SessionTs.ReadCommand | session.ts:54-156 | the reading of a message by `onData` is the command `Parse` describes |
| SessionTs.ReadWords | session.ts:62-156 | the dispatch on the header's first word reads the command `ParseWords` gives for the header and the lines |
| SessionTs.ReadRun | session.ts:71-116 | a RUN header with an id and an image, read option by option, gives the command `ParseRun` describes, and nothing when a number or a required line is missing |
| SessionTs.ReadLines | session.ts:57-59 | a message made of lines, the first of them a header of words, is read as those lines and words |
| SessionTs.ScanOpts | session.ts:85-115 | the loop reads sub-options written one after another as those sub-options, applied in order |
| SessionTs.ScanHead | session.ts:86-108 | one step of the loop: STDOUT and STDERR take the next header word, VOLUME takes two body lines, ENV a word and a line, NETWORK a line, each line less its first character |
| SessionTs.RunParsesAs | session.ts:71-83 | a RUN message is read as its two ids and what the sub-option loop makes of the rest |
| SessionTs.ParseRunText | session.ts:71-116 | a RUN message reads back as the container id, the image id and the defaults with every sub-option applied in order; after WRITE the initial input is the remaining lines joined by newlines |
| SessionTs.LaterStdoutWins | session.ts:87-89 | of two STDOUT settings the later one wins |
| SessionTs.MissingLineDrops | session.ts:105-106 | a NETWORK without its body line drops the whole RUN message |
| SessionTs.VerdictOfHeader | session.ts:138-153 | "VERDICT v SUB s DATA" reads verdict v of subtask s with every line after the header as its data |
| SessionTs.SpellingOk | session.ts:59 | every keyword is a single header word |
| SessionTs.MapNetwork | session.ts:176 | a network is renamed through the session's table when it has a non-empty entry there, and kept otherwise |
| SessionTs.MapNetworks | session.ts:176 | every network is mapped, in order |
| SessionTs.MapVolumes | session.ts:177-180 | every volume's host path becomes `path.join(volumePath, host)`, the container path kept, in order; under an absolute volume path every host path is absolute |
| PosixPath.Plain | session.ts:178 | the segments that are neither empty, "." nor "..", in order |
| PosixPath.Render | session.ts:178 | a normalised absolute path starts with '/' |
| PosixPath.Normalize | session.ts:178 | `path.normalize` keeps an absolute path absolute |
| PosixPath.Join2 | session.ts:178 | `path.join` of two parts: the non-empty ones joined by '/' and normalised; under an absolute directory the result is absolute |
| PosixPath.JoinConcat | session.ts:178 | joining two runs of segments puts one '/' between their joins |
| PosixPath.SplitConcat | session.ts:178 | splitting "a/b" on '/' gives the segments of a followed by those of b |
| PosixPath.ResolveConcat | session.ts:178 | normalising a concatenation resolves the second run of segments on the stack the first leaves |
| PosixPath.ResolveNoParent | session.ts:178 | without ".." segments, normalisation only appends the plain segments |
| PosixPath.ResolveReal | session.ts:178 | what normalisation keeps holds no '/', no empty or "." segment, and from the root no ".." |
| PosixPath.ComponentsReal | session.ts:178 | the segments of a normalised absolute path are all real names |
| PosixPath.JoinUnder | session.ts:178 | a host without ".." lands under the volume path: the directory's own segments followed by the host's plain segments, rooted at '/', with the host's trailing '/' kept |
| PosixPath.RenderConcat | session.ts:178 | an absolute rendering of two non-empty runs of segments is the first, a '/', then the second |
| PosixPath.JoinPrefix | session.ts:178 | a host without ".." is placed after the normalised volume path and one '/' |
| PosixPath.SplitRooted | session.ts:178 | "/s" splits into an empty segment and s |
| PosixPath.SplitParent | session.ts:178 | "/v/../e" splits into "", v, ".." and e |
| PosixPath.ResolveParent | session.ts:178 | from the root, "v/../e" normalises to e alone |
| PosixPath.ParentEscapes | session.ts:178 | a host "../e" climbs out of the volume path "/v": `path.join("/v", "../e")` is "/e" |
| PosixPath.EmptyNameKeepsDir | session.ts:178 | an empty host leaves the volume path itself: `path.join("/v", "")` is "/v" |
| SessionTs.Session.constructor | session.ts:36-52 | a new session has the given id, volume path and networks, and no images or containers |
| SessionTs.Session.BuildImage | session.ts:159-164 | the image's tag is recorded in both directions and the build is requested with it |
| SessionTs.Session.RunContainer | session.ts:166-184 | the container is created from the image's tag with the networks renamed and the volumes placed, recorded in both directions under the engine's id, then started with the initial input |
| SessionTs.Session.OnData | session.ts:54-228 | the command read from the message is carried out on the maps, the engine requests, the replies and the reports; a dropped message changes nothing |
| SessionCpp.SkipSpace | session.cpp:25 | skipping white space leaves a suffix that is empty or starts with a character that is not white space |
| SessionCpp.ReadWord | session.cpp:25-43 | a successful `>>` of a word consumes input and gives a non-empty word; a failed one leaves the word as it was |
| SessionCpp.ReadInt | session.cpp:27-35 | a successful `>>` of an `int` consumes input and gives a value |
| SessionCpp.Extract | session.cpp:27-35 | an extraction that does not fail consumes input and gives a value |
| SessionCpp.GetLine | session.cpp:29-31 | a successful `getline` consumes input |
| SessionCpp.WordOfSpelling | session.cpp:25-90 | every command and sub-option word is told apart by its spelling |
| SessionCpp.ReadInts | session.cpp:46-48 | the PORTS loop reads the integers of the line that `Ints` describes |
| SessionCpp.ReadLines | session.cpp:64-68 | the `getline` loop concatenates the lines that `Lines` describes |
| SessionCpp.ReadOptions | session.cpp:41-72 | the sub-option loop computes the options `Options` describes |
| SessionCpp.ReadCommand | session.cpp:21-92 | the handler's reading of a chunk, with its loops, is the command `Parse` describes, an `int` that cannot be read keeping its indeterminate value |
| SessionCpp.ReadWordOf | session.cpp:25 | `>>` reads back a word written after white space, whatever white space or end ends it |
| SessionCpp.GetLineOf | session.cpp:29-31 | `getline` reads back a line ended by a newline and consumes the newline |
| SessionCpp.GetLastLine | session.cpp:29-31 | `getline` reads the last line up to the end, setting eof |
| SessionCpp.ExtractNegative | session.cpp:27-35 | a negative `int` in range is extracted from its decimal text |
| SessionCpp.ExtractNonNegative | session.cpp:27-35 | a non-negative `int` in range is extracted from its decimal text |
| SessionCpp.ReadIntOf | session.cpp:27-35 | `>>` reads back an `int` written in decimal when nothing continues its digits |
| SessionCpp.LinesOf | session.cpp:64-68 | the `getline` loop reads every line and concatenates them without separators: the newlines between lines are lost |
| SessionCpp.Session.constructor | session.cpp:20 | a new session has the given id and no images or containers |
| SessionCpp.Session.Build | session.cpp:98-104 | the image gets a fresh tag, recorded in both directions, and the build is requested with it |
| SessionCpp.Session.Run | session.cpp:106-111 | an unknown image is given the empty tag and recorded; the container is created from the tag and recorded in both directions under podman's answer, then started |
| SessionCpp.Session.OnData | session.cpp:21-92 | BUILD and RUN act as `build` and `run`; RESTART, STOP, WRITE and any other word change nothing |
| OperatorMessages.ModeTextRoundTrip | lib/operatorApi.cpp:4-11 | each output mode's text reads back as that mode, so no two modes share a text |
| OperatorMessages.VerdictTextRoundTrip | lib/operatorApi.cpp:13-26 | each verdict's text reads back as that verdict, so no two verdicts share a text |
| OperatorMessages.TextsDistinct | lib/operatorApi.cpp:4-26 | `stringValue` is injective on modes and on verdicts |
| OperatorMessages.TextsSolid | lib/operatorApi.cpp:4-26 | every mode and verdict text is a single non-empty word |
| OperatorMessages.Substr | lib/operatorApi.cpp:32 | `substr(pos)` succeeds exactly when `pos` is within the chunk and gives the chunk from `pos` |
| OperatorMessages.StreamFilterOf | lib/operatorApi.cpp:30-40 | a stream listener ignores exactly the chunks not starting with its word, throws exactly on the bare word, and otherwise passes on the chunk from index 7 |
| OperatorMessages.EnvPairs | lib/operatorApi.cpp:53 | the environment in map order has one entry per key |
| OperatorMessages.WriteEnv | lib/operatorApi.cpp:53 | the ENV loop appends one "ENV key value" line per variable, in key order |
| OperatorMessages.EnvTextEndsLine | lib/operatorApi.cpp:53 | the environment lines end with a newline when there are any |
| OperatorApiLib.DispatchUpTo | lib/operatorApi.cpp:101-106 | the first n listeners only call listeners among them, and a throw comes from one of them |
| OperatorApiLib.DispatchExactly | lib/operatorApi.cpp:101-106 | without an exception, listener i is called with arg exactly when its filter accepts the chunk with that argument |
| OperatorApiLib.ThrownBy | lib/operatorApi.cpp:101-106 | the listener that threw accepts the chunk but cannot take it from index 7, and every call made went to a listener before it |
| OperatorApiLib.DispatchOf | lib/operatorApi.cpp:30-40 | only the bare word "STDOUT" or "STDERR" throws; any other chunk reaches the stdout listeners when it starts with STDOUT, the stderr ones when it starts with STDERR, and no listener otherwise |
| OperatorApiLib.ThrowStays | lib/operatorApi.cpp:103-105 | once a delivery has thrown, later listeners change nothing |
| OperatorApiLib.PopBackDrops | lib/operatorApi.cpp:54-56 | `pop_back` removes the newline ending the last option line when there is no initial input, and otherwise the last character of the initial input itself |
| OperatorApiLib.OptionsEndLine | lib/operatorApi.cpp:45-53 | every option line ends with a newline, so the option text does |
| OperatorApiLib.OperatorApi.constructor | lib/operatorApi.cpp:98-107 | a new API has sent nothing, has no listeners, and both counters at 0 |
| OperatorApiLib.OperatorApi.Build | lib/operatorApi.cpp:109-115 | the image number is the old image counter, which grows by one, and the BUILD message is sent |
| OperatorApiLib.OperatorApi.SetSubtaskVerdict | lib/operatorApi.cpp:117-119 | the subtask verdict message is sent, "DATA" written right before the data whatever they are |
| OperatorApiLib.OperatorApi.SetVerdict | lib/operatorApi.cpp:121-123 | the verdict message is sent |
| OperatorApiLib.OperatorApi.OnData | lib/operatorApi.cpp:101-106 | the chunk is offered to every listener in registration order, as `Dispatch` describes |
| OperatorApiLib.OperatorApi.Listen | lib/operatorApi.cpp:31-37 | a listener is appended and nothing else changes |
| OperatorApiLib.ContainerTemplate.constructor | lib/operatorApi.cpp:28 | a template streams its output as it comes and its errors at the end, with nothing else set |
| OperatorApiLib.ContainerTemplate.SetEnv | lib/operatorApi.cpp:53 | setting a variable records it and keeps the keys in `std::map` order |
| OperatorApiLib.ContainerTemplate.Push | lib/operatorApi.cpp:54 | text pushed into the template goes at the end of the initial input |
| OperatorApiLib.ContainerTemplate.OnStdout | lib/operatorApi.cpp:30-34 | a stdout listener is registered, taking STDOUT chunks of any container |
| OperatorApiLib.ContainerTemplate.OnStderr | lib/operatorApi.cpp:36-40 | a stderr listener is registered |
| OperatorApiLib.ContainerTemplate.Run | lib/operatorApi.cpp:42-59 | the container gets the old container counter as its id, the counter grows by one, and the RUN message of the template's settings is sent |
| OperatorApiLib.RunStream | lib/operatorApi.cpp:43-54 | the stream filled option by option holds the header, the PORTS, VOLUME and ENV lines and the WRITE section |
| OperatorApiLib.WritePorts | lib/operatorApi.cpp:49 | the PORTS loop appends " p" for every port |
| OperatorApiLib.WriteVolumes | lib/operatorApi.cpp:52 | the VOLUME loop appends one line per volume |
| OperatorApiLib.Container.constructor | lib/operatorApi.cpp:61 | a container has the given id, template and API |
| OperatorApiLib.Container.Restart | lib/operatorApi.cpp:75-77 | "RESTART id" is sent |
| OperatorApiLib.Container.Stop | lib/operatorApi.cpp:79-81 | "STOP id" is sent |
| OperatorApiLib.Container.Write | lib/operatorApi.cpp:83-85 | the chunk is sent after a RESTART line, not a WRITE one |
| OperatorApiLib.Container.OnStdout | lib/operatorApi.cpp:63-67 | the same listener as the template's is registered, blind to the container |
| OperatorApiLib.Container.OnStderr | lib/operatorApi.cpp:69-73 | a stderr listener is registered |
| OperatorApiSave.DispatchUpTo | save/operatorApi.cpp:13-18 | offering a chunk to the first n listeners keeps one flag per `getHost` and only calls listeners among them |
| OperatorApiSave.AnsweredStays | save/operatorApi.cpp:103-106 | an answered `getHost` stays answered |
| OperatorApiSave.HostCallRaises | save/operatorApi.cpp:102-107 | a `getHost` listener is called only while its flag is down, and the call raises the flag |
| OperatorApiSave.OutputExactly | save/operatorApi.cpp:47-57 | without an exception, an output listener is called with arg exactly when its filter accepts the chunk with that argument |
| OperatorApiSave.Feed | save/operatorApi.cpp:13-18 | a run of chunks keeps one flag per `getHost` |
| OperatorApiSave.FeedKeeps | save/operatorApi.cpp:101-107 | flags raised by the first k chunks are still raised after any later chunk |
| OperatorApiSave.HostAnsweredOnce | save/operatorApi.cpp:100-109 | `getHost` answers at most once: a listener called on one chunk is not called on any later chunk |
| OperatorApiSave.HostAnswer | save/operatorApi.cpp:102-106 | the first HOST chunk reaches a waiting `getHost` listener with the text after "HOST " and throws nowhere |
| OperatorApiSave.HostReached | save/operatorApi.cpp:102-106 | a HOST chunk is ignored by the output listeners and a waiting `getHost` listener is reached with its flag still down |
| OperatorApiSave.OptionsEndLine | save/operatorApi.cpp:62-66 | every option line ends with a newline, so the option text does |
| OperatorApiSave.PopBackDrops | save/operatorApi.cpp:67-69 | `pop_back` removes the newline ending the last option line when there is no initial input, and otherwise the last character of the initial input itself |
| OperatorApiSave.RunStream | save/operatorApi.cpp:60-67 | the stream filled option by option holds the two numbers, the modes, the VOLUME, ENV and NETWORK lines and the WRITE section |
| OperatorApiSave.WriteVolumes | save/operatorApi.cpp:64 | the VOLUME loop appends "VOLUME a" and then b, each on a line of its own, for every volume |
| OperatorApiSave.WriteNetworks | save/operatorApi.cpp:66 | the NETWORK loop appends one line per network |
| OperatorApiSave.OperatorApi.constructor | save/operatorApi.cpp:111-122 | once connected, the operator's token is the first thing written, with no listeners and both counters at 0 |
| OperatorApiSave.OperatorApi.Build | save/operatorApi.cpp:124-130 | the image number is the old image counter, which grows by one, and the BUILD message is sent |
| OperatorApiSave.OperatorApi.SetSubtaskVerdict | save/operatorApi.cpp:132-134 | the subtask verdict message is sent, with a DATA line only when there are data |
| OperatorApiSave.OperatorApi.SetVerdict | save/operatorApi.cpp:136-138 | the verdict message is sent, with a DATA line only when there are data |
| OperatorApiSave.OperatorApi.OnData | save/operatorApi.cpp:12-19 | the chunk is offered to every listener in order, as `Dispatch` describes, and the `getHost` flags become the ones it leaves; every `getHost` listener keeps a flag of its own |
| OperatorApiSave.OperatorApi.Listen | save/operatorApi.cpp:48-54 | a listener is appended and nothing else changes; a `getHost` listener comes with its flag, so every one keeps a flag of its own |
| OperatorApiSave.OperatorApi.AskHost | save/operatorApi.cpp:101-102 | a one-shot listener is appended with a new flag of its own, down |
| OperatorApiSave.Deliver | save/operatorApi.cpp:15-17 | the handler's loop over the listeners computes `Dispatch` |
| OperatorApiSave.ThrowStays | save/operatorApi.cpp:15-17 | once a delivery has thrown, later listeners change nothing |
| OperatorApiSave.ContainerTemplate.constructor | save/operatorApi.cpp:45 | a template streams its output as it comes and its errors at the end, with nothing else set |
| OperatorApiSave.ContainerTemplate.SetEnv | save/operatorApi.cpp:65 | setting a variable records it and keeps the keys in `std::map` order |
| OperatorApiSave.ContainerTemplate.Push | save/operatorApi.cpp:67 | text pushed into the template goes at the end of the initial input |
| OperatorApiSave.ContainerTemplate.OnStdout | save/operatorApi.cpp:47-51 | a stdout listener is registered, taking STDOUT chunks of any container |
| OperatorApiSave.ContainerTemplate.OnStderr | save/operatorApi.cpp:53-57 | a stderr listener is registered |
| OperatorApiSave.ContainerTemplate.Run | save/operatorApi.cpp:59-72 | the container gets the old container counter as its id, the counter grows by one, and the RUN message of the template's settings is sent |
| OperatorApiSave.Container.constructor | save/operatorApi.cpp:74 | a container has the given id, template and API |
| OperatorApiSave.Container.Restart | save/operatorApi.cpp:88-90 | "RESTART id" is sent |
| OperatorApiSave.Container.Stop | save/operatorApi.cpp:92-94 | "STOP id" is sent |
| OperatorApiSave.Container.Write | save/operatorApi.cpp:96-98 | the chunk is sent after a RESTART line |
| OperatorApiSave.Container.OnStdout | save/operatorApi.cpp:76-80 | the same listener as the template's is registered, blind to the container |
| OperatorApiSave.Container.OnStderr | save/operatorApi.cpp:82-86 | a stderr listener is registered |
| OperatorApiSave.Container.GetHost | save/operatorApi.cpp:100-109 | a one-shot listener with a fresh flag is registered, then "HOST id" is sent |
| OperatorProtocol.ControlShapes | lib/operatorApi.cpp:75-85 | the control messages are a command word, a space, the number, and for a write the chunk after a newline |
| OperatorProtocol.LibRunShape | lib/operatorApi.cpp:45-56 | the RUN message of lib/operatorApi.cpp is "RUN id" followed directly by the STDOUT line |
| OperatorProtocol.SaveRunShape | save/operatorApi.cpp:62-69 | the RUN message of save/operatorApi.cpp without volumes, variables or networks is "RUN id", the image line, the two mode lines and the WRITE section less its last character |
| OperatorProtocol.SaveRunStart | save/operatorApi.cpp:62-69 | whatever its options, that message starts with "RUN id" on a line of its own |
| OperatorProtocol.IntAfter | session.cpp:27 | `>> int` reads back a number written after one white-space character |
| OperatorProtocol.CppReadsBuild | session.cpp:26-33 | the C++ session reads a BUILD message back as the image number, the context and the Dockerfile path, when neither holds a newline |
| OperatorProtocol.CppReadsControl | session.cpp:75-82 | the C++ session reads RESTART and STOP back, and reads what `Container::write` sends as a RESTART of the same container, the chunk never written |
| OperatorProtocol.CppRunHead | session.cpp:34-35 | a RUN message is read as its container id, then the image and options from the rest |
| OperatorProtocol.CppReadsLibRun | session.cpp:34-73 | the RUN message of lib/operatorApi.cpp carries no image number, so the C++ session reads image 0 from the word STDOUT, which fails the stream: every option is lost |
| OperatorProtocol.WordForInt | session.cpp:35 | `>> int` on the word STDOUT reads no digit, gives 0 and fails the stream |
| OperatorProtocol.ModeOption | session.cpp:42-43 | an output mode option is read as that mode's text |
| OperatorProtocol.WriteOption | session.cpp:64-68 | the WRITE section is read up to the end of the message |
| OperatorProtocol.SaveOptions | session.cpp:41-72 | the options after the image line are both modes and then the WRITE section, when there is one |
| OperatorProtocol.CppReadsSaveRun | session.cpp:34-73 | the C++ session reads the RUN message of save/operatorApi.cpp as its container, image and both modes, except that the initial input arrives without its last character |
| OperatorProtocol.FirstLine | session.ts:57-59 | the first line of a text is what comes before its first newline |
| OperatorProtocol.TsPairInt | session.ts:118-120 | a keyword and a number on the first line are read as that command and number |
| OperatorProtocol.TsReadsBuild | session.ts:64-70 | session.ts reads a BUILD message back as the image number, the context and the Dockerfile path, when neither holds a newline |
| OperatorProtocol.BuildLines | session.ts:57-69 | a BUILD message splits into the header, the context and the Dockerfile path |
| OperatorProtocol.TsReadsControl | session.ts:117-137 | session.ts reads RESTART, STOP and HOST back, and reads what `Container::write` sends as a RESTART, the chunk never written |
| OperatorProtocol.TsDropsRun | session.ts:71-76 | neither form of the RUN message reaches session.ts, which wants the container and the image on the first line |
| OperatorProtocol.TsReadsVerdict | session.ts:138-153 | session.ts reads the subtask and the data only from the first line, and both forms of `setVerdict` put them on later lines, so the verdict arrives with neither |
| SandboxCommand.Command.constructor | src/sandbox/command.rs:25-44 | a new command holds the program, no arguments, no limits, no redirections and `use_env` off |
| SandboxCommand.Command.Arg | src/sandbox/command.rs:46-49 | one argument is appended and nothing else changes |
| SandboxCommand.Command.Args | src/sandbox/command.rs:51-56 | every argument is appended in order and nothing else changes |
| SandboxCommand.Command.Stdin | src/sandbox/command.rs:58-61 | the input redirection is set to the path |
| SandboxCommand.Command.Stdout | src/sandbox/command.rs:63-66 | the output redirection is set to the path |
| SandboxCommand.Command.Stderr | src/sandbox/command.rs:68-71 | the path lands in the output redirection; the error redirection is untouched |
| SandboxCommand.Command.Time | src/sandbox/command.rs:73-76 | the time limit is set |
| SandboxCommand.Command.RealTime | src/sandbox/command.rs:77-80 | the wall-clock limit is set |
| SandboxCommand.Command.ExtraTime | src/sandbox/command.rs:81-84 | the extra time is set |
| SandboxCommand.Command.Memory | src/sandbox/command.rs:86-89 | the memory limit is set |
| SandboxCommand.Command.Stack | src/sandbox/command.rs:90-93 | the stack limit is set |
| SandboxCommand.Command.CountFiles | src/sandbox/command.rs:95-98 | the open-files limit is set |
| SandboxCommand.Command.CountProcess | src/sandbox/command.rs:99-102 | the process-count limit is set |
| SandboxCommand.Command.UseEnv | src/sandbox/command.rs:104-107 | the environment flag is on, and stays on when called again |
| SandboxCommand.Command.OpenDir | src/sandbox/command.rs:109-112 | the path is appended to the arguments; the open-directory list is untouched |
| SandboxCommand.Command.OpenDirs | src/sandbox/command.rs:113-118 | every path is appended to the arguments in order |
| SandboxCommand.BuilderNeverSetsStderr | src/sandbox/command.rs:68-118 | whatever builder calls follow `new`, the error redirection and the open-directory list stay empty |
| Sandbox.DefaultConfig | src/sandbox/mod.rs:61-83 | the default configuration limits processes to 1, open files to 2, memory to 1048576 KiB, time and wall time to 10 seconds, and leaves the stack unlimited |
| Sandbox.InnerDirInjective | src/sandbox/mod.rs:238-240 | two boxes of one service with the same directory are the same box |
| Sandbox.NameTextInjective | src/sandbox/mod.rs:250-332 | no two isolate options share a name |
| Sandbox.IsolateArgs | src/sandbox/mod.rs:248-339 | the arguments panic exactly when the command's stdout or stderr path is empty, and never fail otherwise |
| Sandbox.ValuesOptions | src/sandbox/mod.rs:248-333 | the values of an option are those of the box flags, the redirections, the directories and the limits, in that order |
| Sandbox.LimitsRead | src/sandbox/mod.rs:284-333 | each limit appears once, with the command's value or else the configured default, only when limited; "--extra-time" always; a bare "--processes" when unlimited; "--full-env" exactly on request |
| Sandbox.LeadingRead | src/sandbox/mod.rs:249-278 | the box, the meta file and each set redirection appear once, with the command's own paths |
| Sandbox.DirsRead | src/sandbox/mod.rs:280-282 | each open directory appears, in order, as a "--dir" option |
| Sandbox.ProgramAfterSeparator | src/sandbox/mod.rs:335-339 | isolate receives the program and the arguments unchanged after the first "--", because no option is "--" itself |
| Sandbox.CollectLast | src/sandbox/mod.rs:231 | a key is in the collected map iff some pair has it, and its value is that of the last such pair |
| Sandbox.MetaPairsOfLines | src/sandbox/mod.rs:226-230 | the lines of a meta file give back its pairs |
| Sandbox.MetaRoundTrip | src/sandbox/mod.rs:225-232 | a meta file written line by line parses to the pairs, the last value of a key winning |
| Sandbox.LeadingDigits | src/sandbox/mod.rs:365-368 | the digit run at the start of a text is all digits and is followed by no digit |
| Sandbox.NatIsRustFloat | src/sandbox/mod.rs:365-366 | every decimal integer is text that `f64` parsing accepts |
| Sandbox.IsolateMetaFields | src/sandbox/mod.rs:365-369 | isolate's meta file holds the time, the wall time, the memory, the message exactly when there is one, and "killed" exactly when killed |
| Sandbox.IsolateMetaStatus | src/sandbox/mod.rs:352-364 | the status read from isolate's meta file is the status reported |
| Sandbox.ReadIsolateMeta | src/sandbox/mod.rs:349-374 | every result isolate can report is read back unchanged |
| Sandbox.OkIffNoStatus | src/sandbox/mod.rs:352-364 | the status is `Ok` exactly when the meta file has no status line |
| Sandbox.UnknownStatusRejected | src/sandbox/mod.rs:360 | a status other than RE, SG and TO is rejected with "incorrect meta file in ISOLATE" |
| Sandbox.KilledAndRequiredKeys | src/sandbox/mod.rs:365-369 | `killed` holds iff the file says exactly "1"; a result needs the time, wall time and max-rss keys, and a missing time panics |
| Sandbox.Sandbox.constructor | src/sandbox/mod.rs:157-160 | a box holds its id and its service's configuration |
| Sandbox.Sandbox.Run | src/sandbox/mod.rs:242-375 | isolate is started with exactly the argument vector above and the result is the one read from the meta file; a panic starts nothing |
| Sandbox.Sandbox.LeadingArgs | src/sandbox/mod.rs:249-278 | the box id, the meta path, then each redirection set; it panics exactly when a stdout or stderr path is empty |
| Sandbox.Sandbox.DirArgs | src/sandbox/mod.rs:280-282 | one "--dir" per open directory, in order |
| Sandbox.Sandbox.TimeArgs | src/sandbox/mod.rs:284-309 | the time, wall-time and memory flags when limited, then "--extra-time" |
| Sandbox.Sandbox.CountArgs | src/sandbox/mod.rs:310-333 | the stack and open-files flags when limited, "--processes" with or without a value, "--full-env" on request |
| Judge.FromRunStatus | src/judge/api.rs:33-41 | a clean run has no verdict; a time limit gives TL, a memory limit ML, an exit code or a signal RE |
| Judge.Show | src/judge/api.rs:48-66 | a verdict prints as two upper-case letters |
| Judge.ShowInjective | src/judge/api.rs:48-66 | distinct verdicts print differently |
| Judge.CheckerVerdict | src/judge/standard.rs:191-214 | a checker's clean exit accepts, exit code 1 is a wrong answer, 2 a presentation error, anything else a testing-system error |
| Judge.SolutionFailure | src/judge/standard.rs:126-140 | a failing solution is judged by its own status with its time, memory, output and the "ISOLATE: " message; only a clean run goes on to the checker |
| Judge.RunCommand | src/judge/mod.rs:60-66 | a C++ program is started as "./name", a Python one through /usr/bin/python3 |
| Judge.RunCommandInjective | src/judge/mod.rs:60-66 | the command line names the language and the file it starts |
| Judge.DefaultTable | src/judge/mod.rs:92-104 | the default table has a command for both languages |
| Judge.CompilationCommand | src/judge/mod.rs:111-124 | the command fails exactly when the table has no entry for the language, with the text "cannot find compilation command for lang: {lang:?} in judge config" naming the language's variant |
| Judge.TemplateFilled | src/judge/mod.rs:120-123 | a template with one "$SOURCE" and a later "$OUTPUT" gets the two names put in |
| Judge.DefaultGppCommand | src/judge/mod.rs:96 | with the default table a C++ source compiles with g++ -O2 into the result name |
| Judge.DefaultPythonCommand | src/judge/mod.rs:97 | with the default table a Python source is copied to the result name |
| Judge.PathFromInjective | src/judge/mod.rs:397-403 | within one directory and extension, different names give different paths |
| Judge.TestFilesDistinct | src/judge/standard.rs:62-72 | different tests read different files |
| Judge.CompileOutcome | src/judge/mod.rs:196-218 | a clean compile goes on; a non-zero exit is a compile error and a limit or signal a testing-system error, both carrying the compiler's error output |
| JudgeStandard.SourcePaths | src/judge/standard.rs:63-75 | test n (from 0) takes its input and correct answer from "input/{n+1}.txt" and "correct/{n+1}.txt" under the work directory |
| JudgeStandard.SourcePathsDistinct | src/judge/standard.rs:63-72 | different tests take their input and correct answer from different files |
| JudgeStandard.SolutionCommand | src/judge/standard.rs:99-111 | the solution runs with the problem's limits, the stack limit only when given, 4 files, 1 process, in.txt in and out.txt out |
| JudgeStandard.SetLimits | src/judge/standard.rs:100-106 | the time, memory and wall-time limits are set, and the stack limit only when the problem has one |
| JudgeStandard.CheckerCommand | src/judge/standard.rs:150-156 | the checker runs on in.txt, out.txt and correct.txt with unlimited files and processes |
| JudgeStandard.CheckerRedirections | src/judge/standard.rs:155-156 | because `stderr` writes the stdout field, isolate sends the checker's output to checker_err.txt and gets no error redirection |
| JudgeStandard.Decide | src/judge/standard.rs:126-223 | time, memory and output come from the solution; a test is accepted iff both runs are clean; a failing solution is judged by its own status, otherwise the checker's status decides |
| JudgeStandard.CheckerRunsOnlyAfterCleanSolution | src/judge/standard.rs:126-158 | the checker runs exactly when the solution's meta file reports a clean run |
| JudgeStandard.AcceptedOnlyWhenBothClean | src/judge/standard.rs:191-214 | an accepted test has no status line in either meta file |
| JudgeStandard.RunChecker | src/judge/standard.rs:150-189 | isolate always gets the checker's arguments, and the test's result is the checker's meta file read back and decided against the solution's run |
| JudgeStandard.Run | src/judge/standard.rs:60-228 | isolate gets the solution's arguments, then the checker's exactly when the solution ran cleanly, and the result is the decision above |
| JudgeInteractive.SourcePaths | src/judge/interactive.rs:68-75 | test n (from 0) takes its file from "test/{n+1}.txt"; the interactor and the solution come from the work directory |
| JudgeInteractive.SourcePathsDistinct | src/judge/interactive.rs:68-72 | different tests take their test file from different paths |
| JudgeInteractive.InteractorFollowsSubmissionLanguage | src/judge/interactive.rs:137-141 | the interactor is started through the submission's language: a Python submission hands the interactor binary to the Python interpreter |
| JudgeInteractive.Wiring | src/judge/interactive.rs:121-162 | the pipes are crossed between the two runs; both see the pipes' directory; only the solution has the memory limit and one process; only the interactor's errors are kept |
| JudgeInteractive.Decide | src/judge/interactive.rs:188-263 | time and memory come from the solution and the output from the interactor; accepted iff both runs are clean; a failing solution is judged by its status with the interactor's errors added, otherwise the interactor's exit decides as a checker's |
| JudgeInteractive.SolutionFailurePrevails | src/judge/interactive.rs:212-227 | a failing solution's verdict does not depend on how the interactor ended |
| JudgeInteractive.InteractiveTest | src/judge/interactive.rs:170-184 | an error from either run fails the test, the solution's first, even where the solution's status alone would decide |
| JudgeDoubleRun.SolutionConfig | src/judge/double_run.rs:104-118 | the solution has the problem's limits, one process, in.txt in, out.txt out, no error stream and no extra directories |
| JudgeDoubleRun.SolutionConfigMatchesCommand | src/judge/double_run.rs:104-118 | this configuration agrees with the standard environment's solution command on every setting both make; only the command caps open files at 4 |
| JudgeDoubleRun.CheckerConfig | src/judge/double_run.rs:162-178 | the checker has the problem's time limit, no memory or stack limit, unlimited open files and the given output streams |
| JudgeDoubleRun.CheckerStreamsKeptApart | src/judge/double_run.rs:175-177 | here the checker's output and errors go to two different files, where the standard environment's command sends its output to checker_err.txt |
| JudgeDoubleRun.DoubleRunTest | src/judge/double_run.rs:100-246 | the checker starts iff the solution ran cleanly and its output was read; a failure of a run or of reading out.txt fails the test; otherwise the standard decision |
| JudgeDoubleRun.AcceptedIffBothClean | src/judge/double_run.rs:214-237 | a test is accepted exactly when the solution and the checker both ran cleanly |
| JudgeTestRunner.RunnerTest | src/judge/test_runner.rs:166-311 | the checker starts iff the solution ran cleanly and out.txt was read; a failure to read the checker's output file, then its error file, fails the test |
| JudgeTestRunner.StricterThanDoubleRun | src/judge/test_runner.rs:252-275 | with both checker files readable this copy and the double-run environment agree, and every test it passes is judged the same there; where a file is unreadable it fails while the double-run one goes on with "-" |
| JudgeGroups.DependsBlocked | src/judge/mod.rs:259-263 | the dependencies let a test through exactly when each is inside the table and unblocked; a blocked one stops it |
| JudgeGroups.TestBlocked | src/judge/mod.rs:256-263 | a test runs exactly when its own group and every dependency are unblocked; an answer means the group is inside the table |
| JudgeGroups.MinFailing | src/judge/mod.rs:277-282 | the new block is the smaller of the old one and the failing test, and is one of them |
| JudgeGroups.GroupsScore | src/judge/mod.rs:296-305 | one score per group |
| JudgeGroups.ScoreBounds | src/judge/mod.rs:296-310 | the total never exceeds the sum of the costs, and reaches it when no group is blocked |
| JudgeGroups.FullScoreOnlyUnblocked | src/judge/mod.rs:296-310 | when every group costs something, the full score means no group was blocked |
| JudgeGroups.RecordExtends | src/judge/mod.rs:273-283 | recording a test only adds a report and blocks; a failure blocks the group at the smaller index |
| JudgeGroups.RunTestsExtends | src/judge/mod.rs:251-286 | running tests never clears a block and never raises a blocked index |
| JudgeGroups.RunGroupsExtends | src/judge/mod.rs:250-287 | the same over every group |
| JudgeGroups.FailedPrefix | src/judge/mod.rs:275 | a failed report stays failed when more reports follow |
| JudgeGroups.RecordWitnessed | src/judge/mod.rs:273-283 | after a recording every block still names a test that ran and failed |
| JudgeGroups.RunTestsWitnessed | src/judge/mod.rs:251-286 | the same after a group's tests |
| JudgeGroups.RunGroupsWitnessed | src/judge/mod.rs:246-287 | starting from an empty table, every group that ends up blocked names a test that ran and failed |
| JudgeGroups.FailureBlocksGroup | src/judge/mod.rs:276-283 | a failing test of a group leaves the group blocked at an index no larger than its own |
| JudgeGroups.AllPassBlocksNothing | src/judge/mod.rs:250-287 | when every verdict is OK no group gets blocked |
| JudgeGroups.AllPassTests | src/judge/mod.rs:251-286 | the same for one group's tests |
| JudgeGroups.ScoreAtMostTotal | src/judge/mod.rs:296-310 | a scored submission has one score per group, their sum as total, and never more than the sum of the costs |
| JudgeGroups.AllPassFullScore | src/judge/mod.rs:240-310 | a compiled submission that passes every test gets every group's cost |
| JudgeGroups.JudgeSubmission | src/judge/mod.rs:240-318 | the compile outcome when compilation failed, else the scores after every group ran |
| JudgeGroups.RunAllGroups | src/judge/mod.rs:246-293 | the nested scheduling loops produce the table and reports of the groups run in order |
| JudgeGroups.RunGroupTests | src/judge/mod.rs:251-286 | one group's tests, each checked against the table and, when not skipped, run and recorded |
| JudgeGroups.CheckBlocked | src/judge/mod.rs:256-263 | the check before each test reads the table as the blocking rule does |
| JudgeLegacy.Checker | src/judge.rs:404-418 | the older checker sends its output to checker_out.txt, keeps no error stream, and has the time limit and no memory limit |
| JudgeLegacy.Decide | src/judge.rs:376-467 | time, memory and output come from the solution; a failing solution is judged by its own status, otherwise the checker's status decides with a "CHECKER: " message |
| JudgeLegacy.AgreesWithStandard | src/judge.rs:435-467 | the older and newer decisions agree on everything but the message, and entirely for a failing solution |
| JudgeLegacy.LegacyTest | src/judge.rs:361-467 | the checker starts iff the solution ran cleanly and out.txt was read; a failed run or read fails the test, the checker's output file included |
| TarIndex.ListPrefix | lib/tar.cpp:153-158 | the prefix is empty exactly for the empty path, otherwise ends with '/', and extends the path by at most that '/' |
| TarIndex.CppChildMeaning | lib/tar.cpp:164-175 | lib/tar.cpp keeps an entry other than the path itself that starts with the prefix and has a '/' after it at most as its last character |
| TarIndex.CppChildIsTsChild | tar.ts:47-50 | every entry lib/tar.cpp lists, tar.ts lists too |
| TarIndex.TsListsNestedDirectories | tar.ts:50 | tar.ts lists "a/b/" at the top level, which lib/tar.cpp does not |
| TarIndex.ListsOwnDirectoryEntry | lib/tar.cpp:164 | listing a path also lists the directory's own entry written with the trailing '/' |
| TarIndex.Listing | lib/tar.cpp:160-176 | a listing has no more entries than the keys |
| TarIndex.ListingMembers | lib/tar.cpp:160-176 | a listing holds exactly the direct children among the keys |
| TarIndex.ListingSnoc | lib/tar.cpp:160-176 | one more key read extends the listing by that key exactly when it is a child |
| TarIndex.StrLessIrreflexive | lib/tar.cpp:160 | `std::string` order is irreflexive |
| TarIndex.StrLessTransitive | lib/tar.cpp:160 | `std::string` order is transitive |
| TarIndex.StrLessTotal | lib/tar.cpp:160 | `std::string` order is total |
| TarIndex.SortedDistinct | lib/tar.cpp:160 | keys in map order are distinct |
| TarIndex.InsertSortedMembers | lib/tar.cpp:190 | a map insertion adds the key and keeps the others |
| TarIndex.InsertSortedSorted | lib/tar.cpp:190 | a map insertion keeps the keys in order |
| TarIndex.ListingSorted | lib/tar.cpp:160-176 | the C++ listing comes out in map order |
| TarIndex.ListingDistinct | tar.ts:46-52 | a listing of distinct keys lists nothing twice |
| TarIndex.LoadedLast | lib/tar.cpp:20-44 | after loading, a path holds what its last entry says: a directory with the empty content, a file with its content |
| TarIndex.LoadedPaths | lib/tar.cpp:20-44 | loading keeps both maps on the same paths, the earlier ones and those of the entries |
| TarCpp.Tar.constructor | lib/tar.cpp:147-149 | construction loads every entry of the archive into empty maps |
| TarCpp.Tar.Store | lib/tar.cpp:28-42 | both maps get the path and the key order gets it in its sorted place |
| TarCpp.Tar.LoadArchive | lib/tar.cpp:8-47 | the maps become the load of the entries; entries without a path are skipped |
| TarCpp.Tar.List | lib/tar.cpp:151-179 | the listing is the filter of the sorted keys by the C++ rule, sorted, holding exactly the stored children |
| TarCpp.Tar.Extract | lib/tar.cpp:181-187 | a stored file's content, otherwise an error naming the path |
| TarCpp.Tar.Contains | lib/tar.cpp:195-201 | whether the path is stored, and whether it is a directory |
| TarCpp.Tar.Insert | lib/tar.cpp:189-193 | the path becomes a file with the data, which `contains` and `extract` then report |
| TarTs.Tar.constructor | tar.ts:9-13 | a new index has empty maps until the archive is loaded |
| TarTs.Tar.Store | tar.ts:21-29 | both maps get the path; a new key goes last |
| TarTs.Tar.LoadArchive | tar.ts:15-40 | the maps become the load of the entries |
| TarTs.Tar.List | tar.ts:42-54 | the listing is the filter of the keys in insertion order by the tar.ts rule, nothing twice, holding exactly the stored children |
| TarTs.Tar.Extract | tar.ts:56-59 | a stored file's content, otherwise an error naming the path |
| TarTs.Tar.Contains | tar.ts:66-69 | whether the path is stored, and whether it is a directory |
| TarTs.Tar.Insert | tar.ts:61-64 | the path becomes a file with the data; a new key goes last |

## Left out

- Websocket transport: the websocket libraries behind `src/server/websocket.rs`, `websocketClient.ts` and `websocketClient.cpp` (handshake, TLS, ping/pong) are not modelled; frames arrive as parameters and sends are recorded in a sequence of outgoing messages.
- Socket lifecycles: the libuv and Bun server and client set-up, `close`/`onClose` handling and the libuv `nread < 0` read path are reduced to the events the models receive; only the framing state is kept.
- socket.cpp, socket.hpp and everything under old/: the top-level socket passes data through unframed and old/ is a previous version no other file uses.
- Containers and processes: podman.cpp, podmanClient.ts, lib/podmanClient.cpp, task.ts, task.cpp, asyncProcess.cpp and src/channel.rs (named pipes) run external processes; the engine's answers are given to the models as parameters (`id`, `now`, the run outcome).
- Archive encoding and decoding: libs/archive, src/archive.rs, the libarchive and tar-stream decoding in `loadArchive`, `rebuildArchive`/`rebuildArchiveProper` and the C++ "Failed to open archive" error; the decoded entries are a parameter of `LoadArchive`.
- TarTs.Tar.LoadArchive: requires every entry to carry a path, because tar-stream always gives one; the C++ reader may give none and its model skips such entries.
- Concurrency: `tokio::spawn`, `Mutex`, `Semaphore`, src/pull.rs and `cancel_all_tests` are left out; the judge is modelled as a sequential loop over groups and tests, which is the order the results are recorded in.
- Sandbox clean-up: the `Drop` of the sandbox and the removal of work directories are file-system effects with no result.
- Floating point: time limits, run times and the `--time`/`--wall-time` arguments are carried as their decimal text and never parsed or compared.
- File-system effects: `write_into_box`, `read_from_box`, pre-creating output files, `write_config_file` and src/config_loader.rs; file contents are parameters of the models.
- Service start-up: `Service::new` and `initialize_sandbox` call external programs.
- Dead code: src/sandboxes/isolate.rs and src/api.rs are not used by the invoker's judge path.
- Glue: src/main.rs, src/application.rs, main.cpp, main.ts, client.cpp, test.cpp, the `Debug` implementations in src/server/mod.rs, the test scripts, templates/, the headers and conanfile.py carry no logic beyond wiring.
- Logger: the ANSI colouring of log levels in src/logger.rs is left out; text is a sequence of characters.
- RawMsg: each incoming line is decoded lossily as UTF-8 (src/server/websocket.rs:49) before it is split and trimmed; the model splits and trims bytes, so invalid UTF-8 is not replaced by U+FFFD and only ASCII white space (bytes 9-13 and 32) is trimmed, where `str::trim` also strips Unicode white space such as U+00A0 and U+3000.
- Ws: the same lossy decoding and Unicode `trim` apply to the command line (src/ws.rs:75-77); a frame "START" C2 A0 "\n" is a START in the source but is skipped by `Ws.Command`, which trims ASCII white space only.
- Framing: lib/lib/socket.cpp:15-20 writes and reads the `uint32_t` length in host byte order; the model takes that order to be little-endian (x86), the order socket.ts uses explicitly.
- JudgeGroups: a group whose range starts at 0 is modelled as the panic of `group.range.0 - 1` (src/judge/mod.rs:251) under overflow checks; in a release build the subtraction wraps, the group runs no test and keeps its cost.
- OperatorApiLib: `getPort` (lib/operatorApi.cpp:87-96) captures locals by reference in a callback that may run after they are gone, so it has no well-defined result to model.
- OperatorApiLib.OperatorApi.Build: the callback that captures `image` by reference is replaced by returning the image number.
- OperatorMessages: the fallback of `stringValue` for enum values outside their range cannot arise with the datatypes used.
- OperatorApiLib and OperatorApiSave: the image and container counters are unbounded integers; 32-bit overflow is not modelled.
- SessionTs: the forwarding of a run's output to the client (session.ts:186-202) is driven by the engine's stream and is left out; the run request itself is modelled.
- WsClientTs: `forEachTask` and `disconnect` only iterate or close connections and are left out.
- SessionTs and SessionCpp: `Date.now` and the session identifiers are parameters (`now`, `session`).
- SessionTs: `parseInt` is modelled on unbounded integers; the precision of JavaScript numbers is not.
- SessionCpp.Parse: a failed `>>` leaves the target integer with its indeterminate value; the model takes it as the parameters `junk` (the command's first integer) and `junkImage` (RUN's image, a separate variable).
- JudgeStandard: the language's `command_to_run` is not part of the sources; it is the `program` parameter.
- OperatorProtocol.CppReadsBuild: only for an image number in the C++ `int` range and context and dockerfile without a newline, because the C++ reader reads them with `getline`.
- OperatorProtocol.TsReadsBuild: only for context and dockerfile without a newline, because session.ts splits the message into lines.
- OperatorProtocol.CppReadsSaveRun: only for settings without volumes, variables and networks and with an initial input without a newline, because the C++ reader does not read those sections back the way the writer lays them out.
- OperatorProtocol.CppReadsControl and OperatorProtocol.CppReadsLibRun: only for identifiers in the C++ `int` range, because larger numbers make the C++ extraction fail.
