/**
 * The log context of src/logger.rs: the same immutable list as
 * src/log_utils.rs, but `Display` writes the separating space only after a
 * non-empty previous state, so the rendering has no leading space.  The
 * terminal colours of key and value are not modelled.
 */
module Logger {
  import opened Text
  import LogUtils

  datatype LogState = Empty | Node(prev: LogState, key: string, value: string)

  /** The pairs of a state in push order. */
  function Pairs(s: LogState): seq<(string, string)>
  {
    match s
    case Empty => []
    case Node(prev, k, v) => Pairs(prev) + [(k, v)]
  }

  /** `LogState::new`: the context with no pairs. */
  function New(): (s: LogState)
    ensures Pairs(s) == [] && Render(s) == ""
  {
    Empty
  }

  /** `LogState::push`: a new state whose pairs are the old ones plus one more; the old state is untouched. */
  function Push(s: LogState, key: string, value: string): (r: LogState)
    ensures Pairs(r) == Pairs(s) + [(key, value)]
    ensures r.prev == s
  {
    Node(s, key, value)
  }

  /** `Display`: the previous state and a space only when it is non-empty, then key<value>. */
  function Render(s: LogState): string
  {
    match s
    case Empty => ""
    case Node(prev, k, v) =>
      (if prev.Node? then Render(prev) + " " else "") + LogUtils.Item((k, v))
  }

  /** The rendered pairs, in push order. */
  function Items(ps: seq<(string, string)>): (r: seq<string>)
    ensures |r| == |ps|
  {
    seq(|ps|, i requires 0 <= i < |ps| => LogUtils.Item(ps[i]))
  }

  /** The rendering is the pairs' key<value> items in push order, separated by single spaces. */
  lemma {:induction false} RenderIsJoin(s: LogState)
    ensures Render(s) == Join(Items(Pairs(s)), ' ')
  {
    match s
    case Empty =>
    case Node(prev, k, v) =>
      var kv := (k, v);
      if prev.Node? {
        RenderIsJoin(prev);
        assert Items(Pairs(prev) + [kv]) == Items(Pairs(prev)) + [LogUtils.Item(kv)];
        JoinSnoc(Items(Pairs(prev)), LogUtils.Item(kv), ' ');
      } else {
        assert Pairs(s) == [kv];
      }
  }

  /** The same pairs rendered by the older src/log_utils.rs carry exactly one extra leading space. */
  lemma {:induction false} LeadingSpaceOnlyInLogUtils(ps: seq<(string, string)>)
    requires |ps| > 0
    ensures LogUtils.SpacedItems(ps) == " " + Join(Items(ps), ' ')
    decreases |ps|
  {
    if |ps| > 1 {
      LeadingSpaceOnlyInLogUtils(ps[1..]);
      assert Items(ps) == [LogUtils.Item(ps[0])] + Items(ps[1..]);
      assert Items(ps)[1..] == Items(ps[1..]);
    } else {
      assert Items(ps) == [LogUtils.Item(ps[0])];
    }
  }

  /** A non-empty rendering starts with the first key, never with a space. */
  lemma NoLeadingSpace(s: LogState)
    requires s.Node?
    requires |Pairs(s)[0].0| > 0 && Pairs(s)[0].0[0] != ' '
    ensures |Render(s)| > 0 && Render(s)[0] != ' '
  {
    RenderIsJoin(s);
    JoinHead(Items(Pairs(s)), ' ');
  }

  lemma JoinHead<T>(parts: seq<seq<T>>, sep: T)
    requires |parts| >= 1
    ensures parts[0] <= Join(parts, sep)
  {
  }
}
