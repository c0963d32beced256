/**
 * The later form of the C++ operator library (save/operatorApi.cpp).  It
 * differs from the earlier one in what it writes: the RUN message carries the
 * image on its own line, a volume's two paths on two lines, and the networks;
 * a verdict carries its DATA line only when there is data; the connection
 * opens with the operator's token.  A container can also ask once for the
 * host it runs on: the first HOST chunk answers it, and later ones do not.
 */
module OperatorApiSave {
  import opened Wrappers
  import opened Text
  import opened OperatorMessages
  import TarIndex

  /**
   * A listener: `onStdout`/`onStderr`, or the one-shot listener of a
   * `getHost` call, whose "answered" flag is `slot` in the object's flags.
   */
  datatype Listener =
    | Output(stdout: bool)
    | HostOnce(slot: nat)

  /** A listener called with an argument. */
  datatype Delivery = Delivery(listener: nat, arg: string)

  /**
   * What offering a chunk to the listeners did: the calls made, in order, the
   * listener whose `substr` threw, if one did, and the `getHost` flags after.
   */
  datatype Dispatched = Dispatched(calls: seq<Delivery>, thrown: Option<nat>, answered: seq<bool>)

  /**
   * One listener's reaction: an output listener filters on its word; a
   * `getHost` listener not yet answered takes a HOST chunk from index 5.
   */
  function React(l: Listener, answered: seq<bool>, chunk: string): Reaction
  {
    match l
    case Output(stdout) => StreamFilter(stdout, chunk)
    case HostOnce(slot) =>
      if slot < |answered| && !answered[slot] then Filter("HOST", 5, chunk) else Ignore
  }

  /** The chunk offered to the first `n` listeners, in order, until one throws. */
  function DispatchUpTo(ls: seq<Listener>, answered: seq<bool>, chunk: string, n: nat): (r: Dispatched)
    requires n <= |ls|
    ensures |r.answered| == |answered|
    ensures forall k :: 0 <= k < |r.calls| ==> r.calls[k].listener < n
    decreases n
  {
    if n == 0 then Dispatched([], None, answered)
    else
      var before := DispatchUpTo(ls, answered, chunk, n - 1);
      if before.thrown.Some? then before
      else
        match React(ls[n - 1], before.answered, chunk)
        case Ignore => before
        case Call(arg) =>
          var flags := if ls[n - 1].HostOnce? then before.answered[ls[n - 1].slot := true] else before.answered;
          Dispatched(before.calls + [Delivery(n - 1, arg)], None, flags)
        case OutOfRange => before.(thrown := Some(n - 1))
  }

  /** `init`'s data handler: the chunk is offered to every listener. */
  function Dispatch(ls: seq<Listener>, answered: seq<bool>, chunk: string): Dispatched
  {
    DispatchUpTo(ls, answered, chunk, |ls|)
  }

  /** An answered `getHost` stays answered. */
  lemma {:induction false} AnsweredStays(ls: seq<Listener>, answered: seq<bool>, chunk: string, n: nat, s: nat)
    requires n <= |ls| && s < |answered| && answered[s]
    ensures DispatchUpTo(ls, answered, chunk, n).answered[s]
    decreases n
  {
    if n > 0 {
      AnsweredStays(ls, answered, chunk, n - 1, s);
    }
  }

  /**
   * A `getHost` listener is called only while its flag is down, and the call
   * raises the flag.
   */
  lemma {:induction false} HostCallRaises(ls: seq<Listener>, answered: seq<bool>, chunk: string, n: nat, i: nat, arg: string)
    requires n <= |ls| && i < |ls| && ls[i].HostOnce?
    requires Delivery(i, arg) in DispatchUpTo(ls, answered, chunk, n).calls
    ensures ls[i].slot < |answered| && !answered[ls[i].slot]
    ensures DispatchUpTo(ls, answered, chunk, n).answered[ls[i].slot]
    decreases n
  {
    var s := ls[i].slot;
    var before := DispatchUpTo(ls, answered, chunk, n - 1);
    if Delivery(i, arg) in before.calls {
      HostCallRaises(ls, answered, chunk, n - 1, i, arg);
      StepKeeps(ls, answered, chunk, n, s);
    } else {
      HostCallLast(ls, answered, chunk, n, i, arg);
      if answered[s] {
        AnsweredStays(ls, answered, chunk, n - 1, s);
      }
    }
  }

  /** One more listener keeps every raised flag raised. */
  lemma StepKeeps(ls: seq<Listener>, answered: seq<bool>, chunk: string, n: nat, s: nat)
    requires 0 < n <= |ls| && s < |answered|
    requires DispatchUpTo(ls, answered, chunk, n - 1).answered[s]
    ensures DispatchUpTo(ls, answered, chunk, n).answered[s]
  {
  }

  /** A call not made before listener `n - 1` is that listener's, and it raised its flag. */
  lemma HostCallLast(ls: seq<Listener>, answered: seq<bool>, chunk: string, n: nat, i: nat, arg: string)
    requires 0 < n <= |ls| && i < |ls| && ls[i].HostOnce?
    requires Delivery(i, arg) in DispatchUpTo(ls, answered, chunk, n).calls
    requires Delivery(i, arg) !in DispatchUpTo(ls, answered, chunk, n - 1).calls
    ensures i == n - 1 && ls[i].slot < |answered|
    ensures !DispatchUpTo(ls, answered, chunk, n - 1).answered[ls[i].slot]
    ensures DispatchUpTo(ls, answered, chunk, n).answered[ls[i].slot]
  {
  }

  /**
   * Without an exception, an output listener is called with `arg` exactly
   * when its filter accepts the chunk with that argument.
   */
  lemma {:induction false} OutputExactly(ls: seq<Listener>, answered: seq<bool>, chunk: string, n: nat, i: nat, arg: string)
    requires n <= |ls| && i < |ls| && ls[i].Output?
    requires DispatchUpTo(ls, answered, chunk, n).thrown == None
    ensures Delivery(i, arg) in DispatchUpTo(ls, answered, chunk, n).calls <==>
      i < n && StreamFilter(ls[i].stdout, chunk) == Call(arg)
    decreases n
  {
    if n > 0 {
      var before := DispatchUpTo(ls, answered, chunk, n - 1);
      OutputExactly(ls, answered, chunk, n - 1, i, arg);
      if i < n - 1 {
        assert Delivery(i, arg) in before.calls ==> i < n - 1;
      }
    }
  }

  /** The flags after a run of chunks, one dispatch after another. */
  function Feed(ls: seq<Listener>, answered: seq<bool>, chunks: seq<string>): (r: seq<bool>)
    ensures |r| == |answered|
  {
    if chunks == [] then answered
    else Dispatch(ls, Feed(ls, answered, chunks[..|chunks| - 1]), chunks[|chunks| - 1]).answered
  }

  /** Flags raised by the first `k` chunks are still raised after the first `m`. */
  lemma {:induction false} FeedKeeps(ls: seq<Listener>, answered: seq<bool>, chunks: seq<string>, k: nat, m: nat, s: nat)
    requires k <= m <= |chunks| && s < |answered|
    requires Feed(ls, answered, chunks[..k])[s]
    ensures Feed(ls, answered, chunks[..m])[s]
    decreases m
  {
    if m > k {
      FeedKeeps(ls, answered, chunks, k, m - 1, s);
      assert chunks[..m][..m - 1] == chunks[..m - 1];
      AnsweredStays(ls, Feed(ls, answered, chunks[..m - 1]), chunks[m - 1], |ls|, s);
    }
  }

  /**
   * `getHost` answers at most once: a `getHost` listener called on chunk `k`
   * of a run of chunks is not called on any later chunk `m`.
   */
  lemma HostAnsweredOnce(ls: seq<Listener>, answered: seq<bool>, chunks: seq<string>, k: nat, m: nat, i: nat, a: string, b: string)
    requires k < m < |chunks| && i < |ls| && ls[i].HostOnce?
    requires Delivery(i, a) in Dispatch(ls, Feed(ls, answered, chunks[..k]), chunks[k]).calls
    ensures Delivery(i, b) !in Dispatch(ls, Feed(ls, answered, chunks[..m]), chunks[m]).calls
  {
    var s := ls[i].slot;
    HostCallRaises(ls, Feed(ls, answered, chunks[..k]), chunks[k], |ls|, i, a);
    assert chunks[..k + 1][..k] == chunks[..k];
    assert Feed(ls, answered, chunks[..k + 1])[s];
    FeedKeeps(ls, answered, chunks, k + 1, m, s);
    if Delivery(i, b) in Dispatch(ls, Feed(ls, answered, chunks[..m]), chunks[m]).calls {
      HostCallRaises(ls, Feed(ls, answered, chunks[..m]), chunks[m], |ls|, i, b);
    }
  }

  /** The first HOST chunk answers a waiting `getHost` with the text after "HOST ". */
  lemma HostAnswer(ls: seq<Listener>, answered: seq<bool>, chunk: string, i: nat)
    requires i < |ls| && ls[i].HostOnce? && ls[i].slot < |answered| && !answered[ls[i].slot]
    requires forall j :: 0 <= j < |ls| && j != i && ls[j].HostOnce? ==> ls[j].slot != ls[i].slot
    requires "HOST" <= chunk && |chunk| >= 5
    ensures Dispatch(ls, answered, chunk).thrown == None
    ensures Delivery(i, chunk[5..]) in Dispatch(ls, answered, chunk).calls
  {
    HostReached(ls, answered, chunk, |ls|, i);
  }

  /**
   * A HOST chunk is ignored by the output listeners and throws nowhere, and a
   * waiting `getHost` listener is reached with its flag still down.
   */
  lemma {:induction false} HostReached(ls: seq<Listener>, answered: seq<bool>, chunk: string, n: nat, i: nat)
    requires n <= |ls| && i < |ls| && ls[i].HostOnce? && ls[i].slot < |answered| && !answered[ls[i].slot]
    requires forall j :: 0 <= j < |ls| && j != i && ls[j].HostOnce? ==> ls[j].slot != ls[i].slot
    requires "HOST" <= chunk && |chunk| >= 5
    ensures DispatchUpTo(ls, answered, chunk, n).thrown == None
    ensures i < n ==> Delivery(i, chunk[5..]) in DispatchUpTo(ls, answered, chunk, n).calls
    ensures i >= n ==> !DispatchUpTo(ls, answered, chunk, n).answered[ls[i].slot]
    decreases n
  {
    if n > 0 {
      HostReached(ls, answered, chunk, n - 1, i);
      var before := DispatchUpTo(ls, answered, chunk, n - 1);
      if ls[n - 1].Output? {
        assert chunk[0] == 'H';
      }
      if i == n - 1 {
        assert React(ls[i], before.answered, chunk) == Call(chunk[5..]);
      }
    }
  }

  // ------------------------------------------------------------- messages

  /** What `run` reads from a container template; `env` in `std::map` key order. */
  datatype Settings = Settings(
    image: int,
    stdout: Mode,
    stderr: Mode,
    volumes: seq<(string, string)>,
    env: seq<(string, string)>,
    networks: seq<string>,
    initStdin: string)

  /** The container and image numbers, and the two output modes, one per line. */
  function HeaderText(id: int, s: Settings): string
  {
    "RUN " + IntToString(id) + "\n" + IntToString(s.image) + "\n" +
    "STDOUT " + ModeText(s.stdout) + "\n" + "STDERR " + ModeText(s.stderr) + "\n"
  }

  /** "VOLUME a" and then b, each on a line of its own, for every volume. */
  function VolumesText(volumes: seq<(string, string)>): string
  {
    if volumes == [] then []
    else
      var v := volumes[|volumes| - 1];
      VolumesText(volumes[..|volumes| - 1]) + "VOLUME " + v.0 + "\n" + v.1 + "\n"
  }

  /** "NETWORK n" on a line of its own for every network. */
  function NetworksText(networks: seq<string>): string
  {
    if networks == [] then []
    else NetworksText(networks[..|networks| - 1]) + "NETWORK " + networks[|networks| - 1] + "\n"
  }

  /** The header and the option lines, before any WRITE section. */
  function OptionsText(id: int, s: Settings): string
  {
    HeaderText(id, s) + VolumesText(s.volumes) + EnvText(s.env) + NetworksText(s.networks)
  }

  /** The text `run` writes into its stream. */
  function RunText(id: int, s: Settings): string
  {
    OptionsText(id, s) + WriteSection(s.initStdin)
  }

  /** The RUN message: the stream's text without its last character. */
  function RunMessage(id: int, s: Settings): string
  {
    PopBack(RunText(id, s))
  }

  /** Every option line ends with a newline, so the option text does. */
  lemma OptionsEndLine(id: int, s: Settings)
    ensures EndsLine(OptionsText(id, s))
  {
    var h := HeaderText(id, s);
    var v := VolumesText(s.volumes);
    var e := EnvText(s.env);
    var w := NetworksText(s.networks);
    assert EndsLine(h);
    if v != [] {
      var x := s.volumes[|s.volumes| - 1];
      assert v == (VolumesText(s.volumes[..|s.volumes| - 1]) + "VOLUME " + x.0 + "\n" + x.1) + "\n";
    }
    EndsLineAppend(h, v);
    EnvTextEndsLine(s.env);
    EndsLineAppend(h + v, e);
    if w != [] {
      var x := s.networks[|s.networks| - 1];
      assert w == (NetworksText(s.networks[..|s.networks| - 1]) + "NETWORK " + x) + "\n";
    }
    EndsLineAppend(h + v + e, w);
  }

  /**
   * What `pop_back` removes: the newline that ends the last option line when
   * there is no initial input, and otherwise the last character of the
   * initial input itself.
   */
  lemma PopBackDrops(id: int, s: Settings)
    ensures s.initStdin == [] ==> RunText(id, s) == RunMessage(id, s) + "\n"
    ensures s.initStdin != [] ==>
      RunText(id, s) == RunMessage(id, s) + [s.initStdin[|s.initStdin| - 1]] &&
      RunMessage(id, s) == OptionsText(id, s) + "WRITE\n" + s.initStdin[..|s.initStdin| - 1]
  {
    var o := OptionsText(id, s);
    if s.initStdin != [] {
      PopWritten(o, s.initStdin);
    } else {
      OptionsEndLine(id, s);
      PopLine(o);
    }
  }

  lemma PopWritten(o: string, x: string)
    requires x != []
    ensures o + WriteSection(x) == PopBack(o + WriteSection(x)) + [x[|x| - 1]]
    ensures PopBack(o + WriteSection(x)) == o + "WRITE\n" + x[..|x| - 1]
  {
    var w := "WRITE\n";
    assert o + WriteSection(x) == (o + w) + x by {
      assert WriteSection(x) == w + x;
      Regroup(o, w, x);
    }
    PopConcat(o + w, x);
  }

  lemma Regroup(a: string, b: string, c: string)
    ensures a + (b + c) == (a + b) + c
  {
  }

  /** Dropping the last character of `p + x` drops it from `x`. */
  lemma PopConcat(p: string, x: string)
    requires x != []
    ensures PopBack(p + x) == p + x[..|x| - 1]
    ensures p + x == PopBack(p + x) + [x[|x| - 1]]
  {
    assert (p + x)[..|p + x| - 1] == p + x[..|x| - 1];
  }

  lemma PopLine(o: string)
    requires EndsLine(o)
    ensures o + WriteSection([]) == PopBack(o + WriteSection([])) + "\n"
  {
    assert o + WriteSection([]) == o;
    assert o == o[..|o| - 1] + [o[|o| - 1]];
  }

  /** The DATA line of a verdict: only when there is data. */
  function DataLine(data: string): string
  {
    if data == [] then "" else "\nDATA" + data
  }

  /** `setVerdict(subtask, verdict, data)`. */
  function SubtaskVerdictMessage(subtask: string, v: Verdict, data: string): string
  {
    "VERDICT " + VerdictText(v) + "\nSUB " + subtask + DataLine(data)
  }

  /** `setVerdict(verdict, data)`. */
  function VerdictMessage(v: Verdict, data: string): string
  {
    "VERDICT " + VerdictText(v) + DataLine(data)
  }

  /** `getHost`'s request. */
  function HostMessage(id: int): string
  {
    "HOST " + IntToString(id)
  }

  /** The stream `run` fills, option by option. */
  method RunStream(id: int, s: Settings) returns (text: string)
    ensures text == RunText(id, s)
  {
    text := HeaderText(id, s);
    text := WriteVolumes(text, s.volumes);
    text := WriteEnv(text, s.env);
    text := WriteNetworks(text, s.networks);
    var write := "";
    if s.initStdin != [] {
      write := "WRITE\n" + s.initStdin;
    }
    assert write == WriteSection(s.initStdin);
    text := text + write;
  }

  /** The VOLUME loop of `run`. */
  method WriteVolumes(text: string, volumes: seq<(string, string)>) returns (r: string)
    ensures r == text + VolumesText(volumes)
  {
    r := text;
    for i := 0 to |volumes|
      invariant r == text + VolumesText(volumes[..i])
    {
      assert volumes[..i + 1][..i] == volumes[..i];
      r := r + "VOLUME " + volumes[i].0 + "\n" + volumes[i].1 + "\n";
    }
    assert volumes[..|volumes|] == volumes;
  }

  /** The NETWORK loop of `run`. */
  method WriteNetworks(text: string, networks: seq<string>) returns (r: string)
    ensures r == text + NetworksText(networks)
  {
    r := text;
    for i := 0 to |networks|
      invariant r == text + NetworksText(networks[..i])
    {
      assert networks[..i + 1][..i] == networks[..i];
      r := r + "NETWORK " + networks[i] + "\n";
    }
    assert networks[..|networks|] == networks;
  }

  // -------------------------------------------------------------- objects

  /**
   * The operator's connection to its session.  The socket is outside the
   * model: `sent` holds what was written to it; `answered` holds one flag
   * per `getHost` call.
   */
  class OperatorApi {
    var imagesCount: int
    var containersCount: int
    var sent: seq<string>
    var listeners: seq<Listener>
    var answered: seq<bool>

    /** Every `getHost` listener has a flag of its own. */
    ghost predicate Valid()
      reads this
    {
      forall i :: 0 <= i < |listeners| && listeners[i].HostOnce? ==> listeners[i].slot < |answered|
    }

    /** `create`: once connected, the operator's token is the first thing written. */
    constructor(initToken: string)
      ensures imagesCount == 0 && containersCount == 0
      ensures sent == [initToken] && listeners == [] && answered == []
      ensures Valid()
    {
      imagesCount, containersCount := 0, 0;
      sent := [initToken];
      listeners, answered := [], [];
    }

    /**
     * `build`: the image takes the next image number, which the BUILD
     * message carries, and the count goes up by one.
     */
    method Build(context: string, dockerfile: string) returns (image: int)
      modifies this
      ensures image == old(imagesCount) && imagesCount == old(imagesCount) + 1
      ensures sent == old(sent) + [BuildMessage(image, context, dockerfile)]
      ensures containersCount == old(containersCount)
      ensures listeners == old(listeners) && answered == old(answered)
    {
      image := imagesCount;
      imagesCount := imagesCount + 1;
      sent := sent + [BuildMessage(image, context, dockerfile)];
    }

    /** `setVerdict(subtaskId, verdict, data)`. */
    method SetSubtaskVerdict(subtask: string, v: Verdict, data: string)
      modifies this
      ensures sent == old(sent) + [SubtaskVerdictMessage(subtask, v, data)]
      ensures imagesCount == old(imagesCount) && containersCount == old(containersCount)
      ensures listeners == old(listeners) && answered == old(answered)
    {
      var line := "";
      if data != [] {
        line := "\nDATA" + data;
      }
      assert line == DataLine(data);
      sent := sent + ["VERDICT " + VerdictText(v) + "\nSUB " + subtask + line];
    }

    /** `setVerdict(verdict, data)`. */
    method SetVerdict(v: Verdict, data: string)
      modifies this
      ensures sent == old(sent) + [VerdictMessage(v, data)]
      ensures imagesCount == old(imagesCount) && containersCount == old(containersCount)
      ensures listeners == old(listeners) && answered == old(answered)
    {
      var line := "";
      if data != [] {
        line := "\nDATA" + data;
      }
      assert line == DataLine(data);
      sent := sent + ["VERDICT " + VerdictText(v) + line];
    }

    /**
     * The data handler `init` installs: every listener, in the order
     * registered, is offered the chunk, until one throws; a `getHost`
     * listener that answers raises its flag.
     */
    method OnData(chunk: string) returns (d: Dispatched)
      requires Valid()
      modifies this
      ensures Valid()
      ensures d == Dispatch(old(listeners), old(answered), chunk)
      ensures answered == d.answered
      ensures listeners == old(listeners) && sent == old(sent)
      ensures imagesCount == old(imagesCount) && containersCount == old(containersCount)
    {
      d := Deliver(listeners, answered, chunk);
      answered := d.answered;
    }

    /** Appends a listener; nothing else changes.  A `getHost` listener must come with its flag. */
    method Listen(l: Listener)
      requires l.HostOnce? ==> l.slot < |answered|
      modifies this
      ensures old(Valid()) ==> Valid()
      ensures listeners == old(listeners) + [l]
      ensures answered == old(answered) && sent == old(sent)
      ensures imagesCount == old(imagesCount) && containersCount == old(containersCount)
    {
      listeners := listeners + [l];
    }

    /**
     * `getHost`'s registration: a fresh flag, down, and a listener on it;
     * then the HOST request.
     */
    method AskHost(id: int)
      requires Valid()
      modifies this
      ensures Valid()
      ensures answered == old(answered) + [false]
      ensures listeners == old(listeners) + [HostOnce(|old(answered)|)]
      ensures sent == old(sent) + [HostMessage(id)]
      ensures imagesCount == old(imagesCount) && containersCount == old(containersCount)
    {
      var slot := |answered|;
      answered := answered + [false];
      listeners := listeners + [HostOnce(slot)];
      sent := sent + ["HOST " + IntToString(id)];
    }
  }

  /** The data handler's loop over the listeners. */
  method Deliver(ls: seq<Listener>, answered: seq<bool>, chunk: string) returns (d: Dispatched)
    ensures d == Dispatch(ls, answered, chunk)
  {
    d := Dispatched([], None, answered);
    var i := 0;
    while i < |ls| && d.thrown == None
      invariant 0 <= i <= |ls|
      invariant d == DispatchUpTo(ls, answered, chunk, i)
      invariant d.thrown.Some? ==> d == DispatchUpTo(ls, answered, chunk, |ls|)
    {
      d := Offer(ls[i], i, d, chunk);
      i := i + 1;
      if d.thrown.Some? {
        ThrowStays(ls, answered, chunk, i);
      }
    }
  }

  /** One listener's turn in the data handler's loop. */
  method Offer(l: Listener, i: nat, d: Dispatched, chunk: string) returns (r: Dispatched)
    requires d.thrown == None
    ensures r == (match React(l, d.answered, chunk)
      case Ignore => d
      case Call(arg) =>
        Dispatched(d.calls + [Delivery(i, arg)], None, if l.HostOnce? then d.answered[l.slot := true] else d.answered)
      case OutOfRange => d.(thrown := Some(i)))
  {
    r := d;
    match l
    case Output(stdout) =>
      var prefix := if stdout then "STDOUT" else "STDERR";
      if prefix <= chunk {
        if |chunk| < 7 {
          r := d.(thrown := Some(i));
        } else {
          r := d.(calls := d.calls + [Delivery(i, chunk[7..])]);
        }
      }
    case HostOnce(slot) =>
      if slot < |d.answered| && !d.answered[slot] && "HOST" <= chunk {
        if |chunk| < 5 {
          r := d.(thrown := Some(i));
        } else {
          r := Dispatched(d.calls + [Delivery(i, chunk[5..])], None, d.answered[slot := true]);
        }
      }
  }

  /** Once a delivery has thrown, later listeners change nothing. */
  lemma {:induction false} ThrowStays(ls: seq<Listener>, answered: seq<bool>, chunk: string, n: nat)
    requires n <= |ls|
    requires DispatchUpTo(ls, answered, chunk, n).thrown.Some?
    ensures DispatchUpTo(ls, answered, chunk, |ls|) == DispatchUpTo(ls, answered, chunk, n)
    decreases |ls| - n
  {
    if n < |ls| {
      assert DispatchUpTo(ls, answered, chunk, n + 1) == DispatchUpTo(ls, answered, chunk, n);
      ThrowStays(ls, answered, chunk, n + 1);
    }
  }

  /** A container configuration, run any number of times. */
  class ContainerTemplate {
    const image: int
    const api: OperatorApi
    var stdout: Mode
    var stderr: Mode
    var volumes: seq<(string, string)>
    /** The keys of `env` in `std::map` order. */
    var envKeys: seq<string>
    var env: map<string, string>
    var networks: seq<string>
    var initStdin: string

    ghost predicate Valid()
      reads this
    {
      TarIndex.Sorted(envKeys) && (forall k :: k in envKeys <==> k in env)
    }

    function Configured(): Settings
      reads this
      requires Valid()
    {
      Settings(image, stdout, stderr, volumes, EnvPairs(envKeys, env), networks, initStdin)
    }

    /** Output streamed as it comes, errors at the end, nothing else set. */
    constructor(image: int, api: OperatorApi)
      ensures this.image == image && this.api == api
      ensures stdout == Normal && stderr == OnEnd
      ensures volumes == [] && env == map[] && envKeys == [] && networks == [] && initStdin == []
      ensures Valid()
    {
      this.image := image;
      this.api := api;
      stdout, stderr := Normal, OnEnd;
      volumes, networks := [], [];
      envKeys, env := [], map[];
      initStdin := [];
    }

    /** `env[key] = value`: a new key takes its place in key order. */
    method SetEnv(key: string, value: string)
      requires Valid()
      modifies this
      ensures Valid()
      ensures env == old(env)[key := value]
      ensures envKeys == TarIndex.InsertSorted(old(envKeys), key)
      ensures stdout == old(stdout) && stderr == old(stderr) && volumes == old(volumes)
      ensures networks == old(networks) && initStdin == old(initStdin)
    {
      TarIndex.InsertSortedSorted(envKeys, key);
      forall k ensures k in TarIndex.InsertSorted(envKeys, key) <==> k in env[key := value] {
        TarIndex.InsertSortedMembers(envKeys, key, k);
      }
      envKeys := TarIndex.InsertSorted(envKeys, key);
      env := env[key := value];
    }

    /** `operator<<`: the text goes at the end of the initial input. */
    method Push(chunk: string)
      modifies this
      ensures initStdin == old(initStdin) + chunk
      ensures stdout == old(stdout) && stderr == old(stderr) && volumes == old(volumes)
      ensures envKeys == old(envKeys) && env == old(env) && networks == old(networks)
    {
      initStdin := initStdin + chunk;
    }

    /** `onStdout`: the listener takes any STDOUT chunk, whichever container it is from. */
    method OnStdout()
      modifies api
      ensures api.listeners == old(api.listeners) + [Output(true)]
      ensures api.answered == old(api.answered) && api.sent == old(api.sent)
      ensures api.imagesCount == old(api.imagesCount) && api.containersCount == old(api.containersCount)
    {
      api.Listen(Output(true));
    }

    /** `onStderr`. */
    method OnStderr()
      modifies api
      ensures api.listeners == old(api.listeners) + [Output(false)]
      ensures api.answered == old(api.answered) && api.sent == old(api.sent)
      ensures api.imagesCount == old(api.imagesCount) && api.containersCount == old(api.containersCount)
    {
      api.Listen(Output(false));
    }

    /**
     * `run`: the container takes the next container number, the count goes
     * up by one, and the RUN message is written without its last character.
     */
    method Run() returns (c: Container)
      requires Valid()
      modifies api
      ensures fresh(c) && c.id == old(api.containersCount) && c.template == this && c.api == api
      ensures api.containersCount == old(api.containersCount) + 1
      ensures api.sent == old(api.sent) + [RunMessage(c.id, Configured())]
      ensures api.imagesCount == old(api.imagesCount)
      ensures api.listeners == old(api.listeners) && api.answered == old(api.answered)
    {
      var id := api.containersCount;
      api.containersCount := api.containersCount + 1;
      var s := Configured();
      var text := RunStream(id, s);
      api.sent := api.sent + [PopBack(text)];
      c := new Container(id, this, api);
    }
  }

  /** A running container. */
  class Container {
    const id: int
    const template: ContainerTemplate
    const api: OperatorApi

    constructor(id: int, template: ContainerTemplate, api: OperatorApi)
      ensures this.id == id && this.template == template && this.api == api
    {
      this.id := id;
      this.template := template;
      this.api := api;
    }

    /** `restart`. */
    method Restart()
      modifies api
      ensures api.sent == old(api.sent) + [RestartMessage(id)]
      ensures api.imagesCount == old(api.imagesCount) && api.containersCount == old(api.containersCount)
      ensures api.listeners == old(api.listeners) && api.answered == old(api.answered)
    {
      api.sent := api.sent + ["RESTART " + IntToString(id)];
    }

    /** `stop`. */
    method Stop()
      modifies api
      ensures api.sent == old(api.sent) + [StopMessage(id)]
      ensures api.imagesCount == old(api.imagesCount) && api.containersCount == old(api.containersCount)
      ensures api.listeners == old(api.listeners) && api.answered == old(api.answered)
    {
      api.sent := api.sent + ["STOP " + IntToString(id)];
    }

    /** `write`: the chunk after a RESTART line. */
    method Write(chunk: string)
      modifies api
      ensures api.sent == old(api.sent) + [WriteMessage(id, chunk)]
      ensures api.imagesCount == old(api.imagesCount) && api.containersCount == old(api.containersCount)
      ensures api.listeners == old(api.listeners) && api.answered == old(api.answered)
    {
      api.sent := api.sent + ["RESTART " + IntToString(id) + "\n" + chunk];
    }

    /** `onStdout`: the same listener as the template's, blind to the container. */
    method OnStdout()
      modifies api
      ensures api.listeners == old(api.listeners) + [Output(true)]
      ensures api.answered == old(api.answered) && api.sent == old(api.sent)
      ensures api.imagesCount == old(api.imagesCount) && api.containersCount == old(api.containersCount)
    {
      api.Listen(Output(true));
    }

    /** `onStderr`. */
    method OnStderr()
      modifies api
      ensures api.listeners == old(api.listeners) + [Output(false)]
      ensures api.answered == old(api.answered) && api.sent == old(api.sent)
      ensures api.imagesCount == old(api.imagesCount) && api.containersCount == old(api.containersCount)
    {
      api.Listen(Output(false));
    }

    /** `getHost`: a one-shot listener, then "HOST id". */
    method GetHost()
      requires api.Valid()
      modifies api
      ensures api.Valid()
      ensures api.answered == old(api.answered) + [false]
      ensures api.listeners == old(api.listeners) + [HostOnce(|old(api.answered)|)]
      ensures api.sent == old(api.sent) + [HostMessage(id)]
      ensures api.imagesCount == old(api.imagesCount) && api.containersCount == old(api.containersCount)
    {
      api.AskHost(id);
    }
  }
}
