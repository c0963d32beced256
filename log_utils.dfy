/**
 * The log context of src/log_utils.rs: an immutable list of key/value pairs
 * shared through `Arc`, newest pair first.  `push` builds a new node on top
 * of the old state, which stays as it was; `Display` renders every pair as
 * " key<value>", oldest first.
 */
module LogUtils {

  datatype State = Empty | Node(prev: State, key: string, value: string)

  /** The pairs of a state in push order. */
  function Pairs(s: State): seq<(string, string)>
  {
    match s
    case Empty => []
    case Node(prev, k, v) => Pairs(prev) + [(k, v)]
  }

  /** `State::new`: the context with no pairs. */
  function New(): (s: State)
    ensures Pairs(s) == [] && Render(s) == ""
  {
    Empty
  }

  /** `State::push`: a new state whose pairs are the old ones plus one more; the old state is untouched. */
  function Push(s: State, key: string, value: string): (r: State)
    ensures Pairs(r) == Pairs(s) + [(key, value)]
    ensures r.prev == s
  {
    Node(s, key, value)
  }

  /** One rendered pair. */
  function Item(kv: (string, string)): string
  {
    kv.0 + "<" + kv.1 + ">"
  }

  /** `Display`: the previous state, a space, then key<value>. */
  function Render(s: State): string
  {
    match s
    case Empty => ""
    case Node(prev, k, v) => Render(prev) + " " + Item((k, v))
  }

  /** Each pair of a list rendered with a space in front, in order. */
  function SpacedItems(ps: seq<(string, string)>): string
  {
    if |ps| == 0 then "" else " " + Item(ps[0]) + SpacedItems(ps[1..])
  }

  lemma {:induction false} SpacedItemsSnoc(ps: seq<(string, string)>, kv: (string, string))
    ensures SpacedItems(ps + [kv]) == SpacedItems(ps) + " " + Item(kv)
    decreases |ps|
  {
    if |ps| == 0 {
      assert ps + [kv] == [kv];
    } else {
      assert (ps + [kv])[1..] == ps[1..] + [kv];
      SpacedItemsSnoc(ps[1..], kv);
    }
  }

  /** Rendering `push(s, k, v)` appends " k<v>" to the rendering of `s`. */
  lemma RenderPush(s: State, key: string, value: string)
    ensures Render(Push(s, key, value)) == Render(s) + " " + key + "<" + value + ">"
  {
  }

  /** n pushes render as " k1<v1> k2<v2> ...": a leading space, then the pairs in push order. */
  lemma {:induction false} RenderIsSpacedItems(s: State)
    ensures Render(s) == SpacedItems(Pairs(s))
  {
    match s
    case Empty =>
    case Node(prev, k, v) =>
      RenderIsSpacedItems(prev);
      SpacedItemsSnoc(Pairs(prev), (k, v));
  }
}
