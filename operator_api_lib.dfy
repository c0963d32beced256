/**
 * The C++ operator library (lib/operatorApi.cpp): the object an operator
 * program uses to build images, configure and run containers, talk to them
 * and report verdicts.  Every call writes one text message to the session's
 * socket; the messages written are recorded in `sent`, in order.  Chunks the
 * session sends back are handed to every registered listener.
 */
module OperatorApiLib {
  import opened Wrappers
  import opened Text
  import opened OperatorMessages
  import TarIndex

  /** A listener registered by `onStdout` (stdout true) or `onStderr`. */
  datatype Listener = Listener(stdout: bool)

  /** A listener called with an argument. */
  datatype Delivery = Delivery(listener: nat, arg: string)

  /**
   * What offering a chunk to the listeners did: the calls made, in order,
   * and the listener whose `substr` threw, if one did.
   */
  datatype Dispatched = Dispatched(calls: seq<Delivery>, thrown: Option<nat>)

  /**
   * The chunk offered to the first `n` listeners, in order.  An exception
   * ends the delivery: the listeners after it are not called.
   */
  function DispatchUpTo(ls: seq<Listener>, chunk: string, n: nat): (r: Dispatched)
    requires n <= |ls|
    ensures forall k :: 0 <= k < |r.calls| ==> r.calls[k].listener < n
    ensures r.thrown.Some? ==> r.thrown.value < n
    decreases n
  {
    if n == 0 then Dispatched([], None)
    else
      var before := DispatchUpTo(ls, chunk, n - 1);
      if before.thrown.Some? then before
      else
        match StreamFilter(ls[n - 1].stdout, chunk)
        case Ignore => before
        case Call(arg) => before.(calls := before.calls + [Delivery(n - 1, arg)])
        case OutOfRange => before.(thrown := Some(n - 1))
  }

  /** `onData`: the chunk is offered to every listener. */
  function Dispatch(ls: seq<Listener>, chunk: string): Dispatched
  {
    DispatchUpTo(ls, chunk, |ls|)
  }

  /**
   * Without an exception, listener `i` is called with `arg` exactly when its
   * filter accepts the chunk with that argument.
   */
  lemma {:induction false} DispatchExactly(ls: seq<Listener>, chunk: string, n: nat, i: nat, arg: string)
    requires n <= |ls|
    requires DispatchUpTo(ls, chunk, n).thrown == None
    ensures Delivery(i, arg) in DispatchUpTo(ls, chunk, n).calls <==>
      i < n && StreamFilter(ls[i].stdout, chunk) == Call(arg)
    decreases n
  {
    if n > 0 {
      var before := DispatchUpTo(ls, chunk, n - 1);
      DispatchExactly(ls, chunk, n - 1, i, arg);
      if i < n - 1 {
        assert Delivery(i, arg) in before.calls ==> i < n - 1;
      }
    }
  }

  /**
   * The listener that threw is one whose filter accepts the chunk but cannot
   * take it from index 7, and every call made went to a listener before it.
   */
  lemma {:induction false} ThrownBy(ls: seq<Listener>, chunk: string, n: nat, j: nat)
    requires n <= |ls|
    requires DispatchUpTo(ls, chunk, n).thrown == Some(j)
    ensures j < n && StreamFilter(ls[j].stdout, chunk) == OutOfRange
    ensures forall k :: 0 <= k < |DispatchUpTo(ls, chunk, n).calls| ==> DispatchUpTo(ls, chunk, n).calls[k].listener < j
    decreases n
  {
    var before := DispatchUpTo(ls, chunk, n - 1);
    if before.thrown.Some? {
      ThrownBy(ls, chunk, n - 1, j);
    }
  }

  /**
   * Only the bare word "STDOUT" or "STDERR" throws; any other chunk reaches
   * every listener, STDOUT chunks the stdout listeners, STDERR chunks the
   * stderr ones, and nothing else any listener.
   */
  lemma DispatchOf(ls: seq<Listener>, chunk: string, i: nat, arg: string)
    requires chunk != "STDOUT" && chunk != "STDERR"
    ensures Dispatch(ls, chunk).thrown == None
    ensures Delivery(i, arg) in Dispatch(ls, chunk).calls <==>
      i < |ls| && |chunk| >= 7 && arg == chunk[7..] &&
      chunk[..6] == (if ls[i].stdout then "STDOUT" else "STDERR")
  {
    var d := Dispatch(ls, chunk);
    if d.thrown.Some? {
      ThrownBy(ls, chunk, |ls|, d.thrown.value);
      StreamFilterOf(ls[d.thrown.value].stdout, chunk);
    }
    DispatchExactly(ls, chunk, |ls|, i, arg);
    if i < |ls| {
      StreamFilterOf(ls[i].stdout, chunk);
      var prefix := if ls[i].stdout then "STDOUT" else "STDERR";
      if |chunk| >= 7 && chunk[..6] == prefix {
        assert prefix <= chunk;
      }
    }
  }

  // ------------------------------------------------------------ messages

  /** What `run` reads from a container template; `env` in `std::map` key order. */
  datatype Settings = Settings(
    stdout: Mode,
    stderr: Mode,
    ports: seq<int>,
    volumes: seq<(string, string)>,
    env: seq<(string, string)>,
    initStdin: string)

  /** " p" for every port. */
  function PortsText(ports: seq<int>): string
  {
    if ports == [] then []
    else PortsText(ports[..|ports| - 1]) + " " + IntToString(ports[|ports| - 1])
  }

  /** "VOLUME a b" on a line of its own for every volume. */
  function VolumesText(volumes: seq<(string, string)>): string
  {
    if volumes == [] then []
    else
      var v := volumes[|volumes| - 1];
      VolumesText(volumes[..|volumes| - 1]) + "VOLUME " + v.0 + " " + v.1 + "\n"
  }

  function HeaderText(id: int, s: Settings): string
  {
    "RUN " + IntToString(id) + "\n" + "STDOUT " + ModeText(s.stdout) + "\n" + "STDERR " + ModeText(s.stderr) + "\n"
  }

  /**
   * The text `run` writes into its stream: the header, PORTS when there is a
   * port, the volumes, the variables, and WRITE with the initial input when
   * there is some.  The container's image is not in it.
   */
  function RunText(id: int, s: Settings): string
  {
    HeaderText(id, s) + PortsLine(s.ports) + VolumesText(s.volumes) + EnvText(s.env) + WriteSection(s.initStdin)
  }

  /** "PORTS p1 p2 ..." on a line of its own, when there is a port. */
  function PortsLine(ports: seq<int>): string
  {
    if ports == [] then "" else "PORTS" + PortsText(ports) + "\n"
  }

  /** The RUN message: the stream's text without its last character. */
  function RunMessage(id: int, s: Settings): string
  {
    PopBack(RunText(id, s))
  }

  /**
   * What `pop_back` removes: the newline that ends the last option line when
   * there is no initial input, and otherwise the last character of the
   * initial input itself.
   */
  lemma PopBackDrops(id: int, s: Settings)
    ensures s.initStdin == [] ==> RunText(id, s) == RunMessage(id, s) + "\n"
    ensures s.initStdin != [] ==>
      RunText(id, s) == RunMessage(id, s) + [s.initStdin[|s.initStdin| - 1]] &&
      RunMessage(id, s) == OptionsText(id, s) + "WRITE\n" + s.initStdin[..|s.initStdin| - 1]
  {
    var t := RunText(id, s);
    var o := OptionsText(id, s);
    assert t == o + WriteSection(s.initStdin);
    assert t == PopBack(t) + [t[|t| - 1]];
    if s.initStdin != [] {
      var w := "WRITE\n" + s.initStdin;
      assert t == (o + "WRITE\n") + s.initStdin;
      assert PopBack(t) == (o + "WRITE\n") + s.initStdin[..|s.initStdin| - 1];
    } else {
      OptionsEndLine(id, s);
      assert t == o;
    }
  }

  /** The header and the option lines, before any WRITE section. */
  function OptionsText(id: int, s: Settings): string
  {
    HeaderText(id, s) + PortsLine(s.ports) + VolumesText(s.volumes) + EnvText(s.env)
  }

  /** Every option line ends with a newline, so the option text does. */
  lemma OptionsEndLine(id: int, s: Settings)
    ensures EndsLine(OptionsText(id, s))
  {
    var h := HeaderText(id, s);
    var p := PortsLine(s.ports);
    var v := VolumesText(s.volumes);
    var e := EnvText(s.env);
    assert EndsLine(h);
    EndsLineAppend(h, p);
    if v != [] {
      var x := s.volumes[|s.volumes| - 1];
      assert v == (VolumesText(s.volumes[..|s.volumes| - 1]) + "VOLUME " + x.0 + " " + x.1) + "\n";
    }
    EndsLineAppend(h + p, v);
    EnvTextEndsLine(s.env);
    EndsLineAppend(h + p + v, e);
  }

  /** `setVerdict(subtask, verdict, data)`: "DATA" is written whatever the data. */
  function SubtaskVerdictMessage(subtask: string, v: Verdict, data: string): string
  {
    "VERDICT " + VerdictText(v) + "\nSUB " + subtask + "\nDATA" + data
  }

  /** `setVerdict(verdict, data)`. */
  function VerdictMessage(v: Verdict, data: string): string
  {
    "VERDICT " + VerdictText(v) + "\nDATA" + data
  }

  // -------------------------------------------------------------- objects

  /**
   * The operator's connection to its session.  The socket is outside the
   * model: `sent` holds what was written to it.
   */
  class OperatorApi {
    var imagesCount: int
    var containersCount: int
    var sent: seq<string>
    var listeners: seq<Listener>

    constructor()
      ensures imagesCount == 0 && containersCount == 0
      ensures sent == [] && listeners == []
    {
      imagesCount, containersCount := 0, 0;
      sent, listeners := [], [];
    }

    /**
     * `build`: the image takes the next image number, which the BUILD
     * message carries, and the count goes up by one.
     */
    method Build(context: string, dockerfile: string) returns (image: int)
      modifies this
      ensures image == old(imagesCount) && imagesCount == old(imagesCount) + 1
      ensures sent == old(sent) + [BuildMessage(image, context, dockerfile)]
      ensures containersCount == old(containersCount) && listeners == old(listeners)
    {
      image := imagesCount;
      imagesCount := imagesCount + 1;
      sent := sent + [BuildMessage(image, context, dockerfile)];
    }

    /** `setVerdict(subtaskId, verdict, data)`. */
    method SetSubtaskVerdict(subtask: string, v: Verdict, data: string)
      modifies this
      ensures sent == old(sent) + [SubtaskVerdictMessage(subtask, v, data)]
      ensures imagesCount == old(imagesCount) && containersCount == old(containersCount)
      ensures listeners == old(listeners)
    {
      sent := sent + ["VERDICT " + VerdictText(v) + "\nSUB " + subtask + "\nDATA" + data];
    }

    /** `setVerdict(verdict, data)`. */
    method SetVerdict(v: Verdict, data: string)
      modifies this
      ensures sent == old(sent) + [VerdictMessage(v, data)]
      ensures imagesCount == old(imagesCount) && containersCount == old(containersCount)
      ensures listeners == old(listeners)
    {
      sent := sent + ["VERDICT " + VerdictText(v) + "\nDATA" + data];
    }

    /**
     * The data handler: every listener, in the order registered, is offered
     * the chunk, until one throws.
     */
    method OnData(chunk: string) returns (d: Dispatched)
      ensures d == Dispatch(listeners, chunk)
    {
      d := Dispatched([], None);
      var i := 0;
      while i < |listeners| && d.thrown == None
        invariant 0 <= i <= |listeners|
        invariant d == DispatchUpTo(listeners, chunk, i)
        invariant d.thrown.Some? ==> d == DispatchUpTo(listeners, chunk, |listeners|)
      {
        var prefix := if listeners[i].stdout then "STDOUT" else "STDERR";
        if prefix <= chunk {
          if |chunk| < 7 {
            d := d.(thrown := Some(i));
          } else {
            d := d.(calls := d.calls + [Delivery(i, chunk[7..])]);
          }
        }
        i := i + 1;
        if d.thrown.Some? {
          ThrowStays(listeners, chunk, i);
        }
      }
    }

    /** Appends a listener; nothing else changes. */
    method Listen(l: Listener)
      modifies this
      ensures listeners == old(listeners) + [l]
      ensures sent == old(sent) && imagesCount == old(imagesCount) && containersCount == old(containersCount)
    {
      listeners := listeners + [l];
    }
  }

  /** Once a delivery has thrown, later listeners change nothing. */
  lemma {:induction false} ThrowStays(ls: seq<Listener>, chunk: string, n: nat)
    requires n <= |ls|
    requires DispatchUpTo(ls, chunk, n).thrown.Some?
    ensures DispatchUpTo(ls, chunk, |ls|) == DispatchUpTo(ls, chunk, n)
    decreases |ls| - n
  {
    if n < |ls| {
      assert DispatchUpTo(ls, chunk, n + 1) == DispatchUpTo(ls, chunk, n);
      ThrowStays(ls, chunk, n + 1);
    }
  }

  /** A container configuration, run any number of times. */
  class ContainerTemplate {
    const image: int
    const api: OperatorApi
    var stdout: Mode
    var stderr: Mode
    var ports: seq<int>
    var volumes: seq<(string, string)>
    /** The keys of `env` in `std::map` order. */
    var envKeys: seq<string>
    var env: map<string, string>
    var initStdin: string

    ghost predicate Valid()
      reads this
    {
      TarIndex.Sorted(envKeys) && (forall k :: k in envKeys <==> k in env)
    }

    function Configured(): Settings
      reads this
      requires Valid()
    {
      Settings(stdout, stderr, ports, volumes, EnvPairs(envKeys, env), initStdin)
    }

    /** Output streamed as it comes, errors at the end, nothing else set. */
    constructor(image: int, api: OperatorApi)
      ensures this.image == image && this.api == api
      ensures stdout == Normal && stderr == OnEnd
      ensures ports == [] && volumes == [] && env == map[] && envKeys == [] && initStdin == []
      ensures Valid()
    {
      this.image := image;
      this.api := api;
      stdout, stderr := Normal, OnEnd;
      ports, volumes := [], [];
      envKeys, env := [], map[];
      initStdin := [];
    }

    /** `env[key] = value`: a new key takes its place in key order. */
    method SetEnv(key: string, value: string)
      requires Valid()
      modifies this
      ensures Valid()
      ensures env == old(env)[key := value]
      ensures envKeys == TarIndex.InsertSorted(old(envKeys), key)
      ensures stdout == old(stdout) && stderr == old(stderr) && ports == old(ports)
      ensures volumes == old(volumes) && initStdin == old(initStdin)
    {
      TarIndex.InsertSortedSorted(envKeys, key);
      forall k ensures k in TarIndex.InsertSorted(envKeys, key) <==> k in env[key := value] {
        TarIndex.InsertSortedMembers(envKeys, key, k);
      }
      envKeys := TarIndex.InsertSorted(envKeys, key);
      env := env[key := value];
    }

    /** `operator<<`: the text goes at the end of the initial input. */
    method Push(chunk: string)
      modifies this
      ensures initStdin == old(initStdin) + chunk
      ensures stdout == old(stdout) && stderr == old(stderr) && ports == old(ports)
      ensures volumes == old(volumes) && envKeys == old(envKeys) && env == old(env)
    {
      initStdin := initStdin + chunk;
    }

    /** `onStdout`: the listener takes any STDOUT chunk, whichever container it is from. */
    method OnStdout()
      modifies api
      ensures api.listeners == old(api.listeners) + [Listener(true)]
      ensures api.sent == old(api.sent)
      ensures api.imagesCount == old(api.imagesCount) && api.containersCount == old(api.containersCount)
    {
      api.Listen(Listener(true));
    }

    /** `onStderr`. */
    method OnStderr()
      modifies api
      ensures api.listeners == old(api.listeners) + [Listener(false)]
      ensures api.sent == old(api.sent)
      ensures api.imagesCount == old(api.imagesCount) && api.containersCount == old(api.containersCount)
    {
      api.Listen(Listener(false));
    }

    /**
     * `run`: the container takes the next container number, the count goes
     * up by one, and the RUN message is built line by line and written
     * without its last character.
     */
    method Run() returns (c: Container)
      requires Valid()
      modifies api
      ensures fresh(c) && c.id == old(api.containersCount) && c.template == this && c.api == api
      ensures api.containersCount == old(api.containersCount) + 1
      ensures api.sent == old(api.sent) + [RunMessage(c.id, Configured())]
      ensures api.imagesCount == old(api.imagesCount) && api.listeners == old(api.listeners)
    {
      var id := api.containersCount;
      api.containersCount := api.containersCount + 1;
      var s := Configured();
      var text := RunStream(id, s);
      api.sent := api.sent + [PopBack(text)];
      c := new Container(id, this, api);
    }
  }

  /** The stream `run` fills, option by option. */
  method RunStream(id: int, s: Settings) returns (text: string)
    ensures text == RunText(id, s)
  {
    text := HeaderText(id, s);
    var ports := "";
    if s.ports != [] {
      var line := WritePorts("PORTS", s.ports);
      ports := line + "\n";
    }
    assert ports == PortsLine(s.ports);
    text := text + ports;
    text := WriteVolumes(text, s.volumes);
    text := WriteEnv(text, s.env);
    var write := "";
    if s.initStdin != [] {
      write := "WRITE\n" + s.initStdin;
    }
    assert write == WriteSection(s.initStdin);
    text := text + write;
  }

  /** The PORTS loop of `run`. */
  method WritePorts(text: string, ports: seq<int>) returns (r: string)
    ensures r == text + PortsText(ports)
  {
    r := text;
    for i := 0 to |ports|
      invariant r == text + PortsText(ports[..i])
    {
      assert ports[..i + 1][..i] == ports[..i];
      r := r + " " + IntToString(ports[i]);
    }
    assert ports[..|ports|] == ports;
  }

  /** The VOLUME loop of `run`. */
  method WriteVolumes(text: string, volumes: seq<(string, string)>) returns (r: string)
    ensures r == text + VolumesText(volumes)
  {
    r := text;
    for i := 0 to |volumes|
      invariant r == text + VolumesText(volumes[..i])
    {
      assert volumes[..i + 1][..i] == volumes[..i];
      r := r + "VOLUME " + volumes[i].0 + " " + volumes[i].1 + "\n";
    }
    assert volumes[..|volumes|] == volumes;
  }

  /** A running container. */
  class Container {
    const id: int
    const template: ContainerTemplate
    const api: OperatorApi

    constructor(id: int, template: ContainerTemplate, api: OperatorApi)
      ensures this.id == id && this.template == template && this.api == api
    {
      this.id := id;
      this.template := template;
      this.api := api;
    }

    /** `restart`. */
    method Restart()
      modifies api
      ensures api.sent == old(api.sent) + [RestartMessage(id)]
      ensures api.imagesCount == old(api.imagesCount) && api.containersCount == old(api.containersCount)
      ensures api.listeners == old(api.listeners)
    {
      api.sent := api.sent + ["RESTART " + IntToString(id)];
    }

    /** `stop`. */
    method Stop()
      modifies api
      ensures api.sent == old(api.sent) + [StopMessage(id)]
      ensures api.imagesCount == old(api.imagesCount) && api.containersCount == old(api.containersCount)
      ensures api.listeners == old(api.listeners)
    {
      api.sent := api.sent + ["STOP " + IntToString(id)];
    }

    /** `write`: the chunk after a RESTART line. */
    method Write(chunk: string)
      modifies api
      ensures api.sent == old(api.sent) + [WriteMessage(id, chunk)]
      ensures api.imagesCount == old(api.imagesCount) && api.containersCount == old(api.containersCount)
      ensures api.listeners == old(api.listeners)
    {
      api.sent := api.sent + ["RESTART " + IntToString(id) + "\n" + chunk];
    }

    /** `onStdout`: the same listener as the template's, blind to the container. */
    method OnStdout()
      modifies api
      ensures api.listeners == old(api.listeners) + [Listener(true)]
      ensures api.sent == old(api.sent)
      ensures api.imagesCount == old(api.imagesCount) && api.containersCount == old(api.containersCount)
    {
      api.Listen(Listener(true));
    }

    /** `onStderr`. */
    method OnStderr()
      modifies api
      ensures api.listeners == old(api.listeners) + [Listener(false)]
      ensures api.sent == old(api.sent)
      ensures api.imagesCount == old(api.imagesCount) && api.containersCount == old(api.containersCount)
    {
      api.Listen(Listener(false));
    }
  }
}
