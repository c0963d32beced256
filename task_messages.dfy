/**
 * The task-addressed messages the operator-side websocket clients send
 * (the `format*` functions of websocketClient.ts and websocketClient.cpp,
 * which write the same text): a line with the task id, then the invoker's
 * message in the layout of src/ws.rs, without its final newline.
 *
 * `ReadTaskMessage` is a reference reader, not part of the source: the
 * lemmas show that it recovers the task id and the message from every text
 * the clients write.
 */
module TaskMessages {
  import opened Wrappers
  import opened Text
  import Ws

  const INVOKER_ERROR: string := "ERROR"
  const OPERATOR_ERROR: string := "OPERROR"

  /** `formatFullVerdictMessage`. */
  function FullVerdictMessage(taskId: string, verdict: string, data: string): string
  {
    taskId + "\n" + ("VERDICT " + verdict + "\n" + data)
  }

  /** `formatSubtaskVerdictMessage`. */
  function SubtaskVerdictMessage(taskId: string, subtaskId: string, verdict: string, data: string): string
  {
    taskId + "\n" + ("SUBTASK " + subtaskId + "\nVERDICT " + verdict + "\n" + data)
  }

  /** `formatExitedMessage`: the exit code in decimal. */
  function ExitedMessage(taskId: string, exitCode: int, exitData: string): string
  {
    taskId + "\n" + ("EXITED " + IntToString(exitCode) + "\n" + exitData)
  }

  /** `formatErrorMessage`: the caller names the kind, ERROR for the invoker's errors and OPERROR for the operator's. */
  function ErrorMessage(taskId: string, errorType: string, errorMessage: string): string
  {
    taskId + "\n" + (errorType + "\n" + errorMessage)
  }

  /** The text a client sends for task `taskId` and message `m`, through the matching `send*` method. */
  function TaskMessage(taskId: string, m: Ws.Outgo): string
  {
    match m
    case FullTaskVerdict(v, data) => FullVerdictMessage(taskId, v, data)
    case SubTaskVerdict(id, v, data) => SubtaskVerdictMessage(taskId, NatToString(id), v, data)
    case Exited(code, data) => ExitedMessage(taskId, code, data)
    case Error(msg) => ErrorMessage(taskId, INVOKER_ERROR, msg)
    case OpError(msg) => ErrorMessage(taskId, OPERATOR_ERROR, msg)
  }

  /** Every client message is the invoker's text for the same message behind a task-id line, less the last newline. */
  lemma TaskMessageIsInvokerText(taskId: string, m: Ws.Outgo)
    ensures TaskMessage(taskId, m) + "\n" == taskId + "\n" + Ws.Format(m)
  {
    match m
    case FullTaskVerdict(v, data) =>
      Behind(taskId, "VERDICT " + v + "\n" + data);
    case SubTaskVerdict(id, v, data) =>
      Behind(taskId, "SUBTASK " + NatToString(id) + "\nVERDICT " + v + "\n" + data);
    case Exited(code, data) =>
      Behind(taskId, "EXITED " + NatToString(code) + "\n" + data);
    case Error(msg) =>
      ErrorBody(taskId, "ERROR", msg);
    case OpError(msg) =>
      ErrorBody(taskId, "OPERROR", msg);
  }

  lemma Behind(taskId: string, body: string)
    ensures taskId + "\n" + body + "\n" == taskId + "\n" + (body + "\n")
  {
  }

  lemma ErrorBody(taskId: string, kind: string, msg: string)
    ensures ErrorMessage(taskId, kind, msg) + "\n" == taskId + "\n" + (kind + "\n" + msg + "\n")
  {
  }

  /** A reader of client messages: the task-id line, then the invoker's message closed by a newline. */
  function ReadTaskMessage(s: string): Option<(string, Ws.Outgo)>
  {
    match SplitOnce(s, '\n')
    case None => None
    case Some((taskId, rest)) =>
      match Ws.Parse(rest + "\n")
      case None => None
      case Some(m) => Some((taskId, m))
  }

  /** Round trip: the reader recovers the task id and the message from every client message. */
  lemma ReadTaskMessageOf(taskId: string, m: Ws.Outgo)
    requires '\n' !in taskId && Ws.Readable(m)
    ensures ReadTaskMessage(TaskMessage(taskId, m)) == Some((taskId, m))
  {
    var s := TaskMessage(taskId, m);
    TaskMessageIsInvokerText(taskId, m);
    var f := Ws.Format(m);
    assert |f| > 0 && f[|f| - 1] == '\n' by {
      Ws.ParseFormat(m);
    }
    var rest := f[..|f| - 1];
    assert f == rest + "\n";
    assert s + "\n" == taskId + "\n" + rest + "\n";
    assert s == taskId + ['\n'] + rest;
    SplitOnceAt(taskId, rest, '\n');
    Ws.ParseFormat(m);
  }

  /** Conversely, whatever the reader accepts is the text a client writes for what it read. */
  lemma TaskMessageOfRead(s: string)
    requires ReadTaskMessage(s).Some?
    ensures var (taskId, m) := ReadTaskMessage(s).value;
      '\n' !in taskId && Ws.Readable(m) && TaskMessage(taskId, m) == s
  {
    var (taskId, rest) := SplitOnce(s, '\n').value;
    var m := Ws.Parse(rest + "\n").value;
    Ws.FormatParse(rest + "\n");
    TaskMessageIsInvokerText(taskId, m);
    var t := TaskMessage(taskId, m);
    assert t + "\n" == s + "\n";
    assert t == (t + "\n")[..|t|] && s == (s + "\n")[..|s|];
  }
}
