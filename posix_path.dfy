/**
 * Node's `path.join` on POSIX, which session.ts uses to place a volume's
 * host directory under the session's volume path: the non-empty arguments
 * are joined by '/', then the result is normalised.  Normalising splits the
 * path on '/', drops empty and "." segments, lets ".." remove the segment
 * before it (or keeps it, on a relative path with nothing left to remove),
 * and puts back a leading '/' and a trailing '/' where the joined path had
 * them; a path with no segment left is "/", "./" or ".".
 */
module PosixPath {
  import opened Text

  /** The segments that normalisation drops outright. */
  predicate Ignored(seg: string)
  {
    seg == "" || seg == "."
  }

  /**
   * The segment stack after reading `segs`: an ignored segment changes
   * nothing, ".." pops the last real segment, and on a relative path with
   * nothing to pop (`aboveRoot`) it is kept.
   */
  function Resolve(stack: seq<string>, segs: seq<string>, aboveRoot: bool): seq<string>
    decreases |segs|
  {
    if segs == [] then stack
    else if Ignored(segs[0]) then Resolve(stack, segs[1..], aboveRoot)
    else if segs[0] == ".." then
      if stack != [] && stack[|stack| - 1] != ".." then Resolve(stack[..|stack| - 1], segs[1..], aboveRoot)
      else if aboveRoot then Resolve(stack + [".."], segs[1..], aboveRoot)
      else Resolve(stack, segs[1..], aboveRoot)
    else Resolve(stack + [segs[0]], segs[1..], aboveRoot)
  }

  /** The segments that are neither ignored nor "..", in order. */
  function Plain(segs: seq<string>): (r: seq<string>)
    ensures forall i :: 0 <= i < |r| ==> r[i] in segs && !Ignored(r[i])
  {
    if segs == [] then []
    else if Ignored(segs[0]) || segs[0] == ".." then Plain(segs[1..])
    else [segs[0]] + Plain(segs[1..])
  }

  predicate Absolute(p: string)
  {
    p != [] && p[0] == '/'
  }

  predicate Trailing(p: string)
  {
    p != [] && p[|p| - 1] == '/'
  }

  /** The segments `normalize` keeps of a path. */
  function Components(p: string): seq<string>
  {
    Resolve([], Split(p, '/'), !Absolute(p))
  }

  /** A normalised path from its segments, its leading '/' and its trailing '/'. */
  function Render(absolute: bool, segs: seq<string>, trailing: bool): (r: string)
    ensures absolute ==> r != [] && r[0] == '/'
  {
    if segs == [] then (if absolute then "/" else if trailing then "./" else ".")
    else
      var body := Join(segs, '/');
      if absolute then "/" + body + (if trailing then "/" else "")
      else if trailing then body + "/" else body
  }

  /** `path.normalize`. */
  function Normalize(p: string): (r: string)
    ensures Absolute(p) ==> Absolute(r)
  {
    if p == [] then "." else Render(Absolute(p), Components(p), Trailing(p))
  }

  /** `path.join(dir, name)`: the non-empty arguments joined by '/', then normalised. */
  function Join2(dir: string, name: string): (r: string)
    ensures Absolute(dir) ==> Absolute(r)
  {
    if dir == [] && name == [] then "."
    else if dir == [] then Normalize(name)
    else if name == [] then Normalize(dir)
    else Normalize(dir + "/" + name)
  }

  // ------------------------------------------------------------- lemmas

  /** Joining two non-empty lists of parts puts one separator between their joins. */
  lemma {:induction false} JoinConcat<T>(p: seq<seq<T>>, q: seq<seq<T>>, sep: T)
    requires |p| >= 1 && |q| >= 1
    ensures Join(p + q, sep) == Join(p, sep) + [sep] + Join(q, sep)
    decreases |p|
  {
    if |p| == 1 {
      assert (p + q)[1..] == q;
    } else {
      assert (p + q)[1..] == p[1..] + q;
      JoinConcat(p[1..], q, sep);
    }
  }

  /** Splitting at a separator splits each side on its own. */
  lemma SplitConcat(a: string, b: string)
    ensures Split(a + "/" + b, '/') == Split(a, '/') + Split(b, '/')
  {
    var parts := Split(a, '/') + Split(b, '/');
    JoinConcat(Split(a, '/'), Split(b, '/'), '/');
    assert Join(parts, '/') == a + "/" + b;
    forall i | 0 <= i < |parts|
      ensures '/' !in parts[i]
    {
      if i >= |Split(a, '/')| {
        assert parts[i] == Split(b, '/')[i - |Split(a, '/')|];
      }
    }
    SplitJoin(parts, '/');
  }

  /** Resolving a concatenation resolves the second part on the first's stack. */
  lemma {:induction false} ResolveConcat(stack: seq<string>, s: seq<string>, t: seq<string>, aboveRoot: bool)
    ensures Resolve(stack, s + t, aboveRoot) == Resolve(Resolve(stack, s, aboveRoot), t, aboveRoot)
    decreases |s|
  {
    if s != [] {
      assert (s + t)[0] == s[0] && (s + t)[1..] == s[1..] + t;
      if Ignored(s[0]) {
        ResolveConcat(stack, s[1..], t, aboveRoot);
      } else if s[0] == ".." {
        if stack != [] && stack[|stack| - 1] != ".." {
          ResolveConcat(stack[..|stack| - 1], s[1..], t, aboveRoot);
        } else if aboveRoot {
          ResolveConcat(stack + [".."], s[1..], t, aboveRoot);
        } else {
          ResolveConcat(stack, s[1..], t, aboveRoot);
        }
      } else {
        ResolveConcat(stack + [s[0]], s[1..], t, aboveRoot);
      }
    } else {
      assert s + t == t;
    }
  }

  /** Without "..", resolving only appends the plain segments. */
  lemma {:induction false} ResolveNoParent(stack: seq<string>, segs: seq<string>, aboveRoot: bool)
    requires ".." !in segs
    ensures Resolve(stack, segs, aboveRoot) == stack + Plain(segs)
    decreases |segs|
  {
    if segs != [] {
      assert ".." !in segs[1..] by { assert forall x :: x in segs[1..] ==> x in segs; }
      if Ignored(segs[0]) {
        ResolveNoParent(stack, segs[1..], aboveRoot);
      } else {
        ResolveNoParent(stack + [segs[0]], segs[1..], aboveRoot);
        assert stack + [segs[0]] + Plain(segs[1..]) == stack + Plain(segs);
      }
    }
  }

  /** Segments without separators and ignored segments, and without ".." unless `aboveRoot`. */
  predicate Real(segs: seq<string>, aboveRoot: bool)
  {
    forall i :: 0 <= i < |segs| ==> '/' !in segs[i] && !Ignored(segs[i]) && (!aboveRoot ==> segs[i] != "..")
  }

  /** Resolution keeps only real segments: from the root, ".." never survives. */
  lemma {:induction false} ResolveReal(stack: seq<string>, segs: seq<string>, aboveRoot: bool)
    requires Real(stack, aboveRoot)
    requires forall i :: 0 <= i < |segs| ==> '/' !in segs[i]
    ensures Real(Resolve(stack, segs, aboveRoot), aboveRoot)
    decreases |segs|
  {
    if segs != [] {
      if Ignored(segs[0]) {
        ResolveReal(stack, segs[1..], aboveRoot);
      } else if segs[0] == ".." {
        if stack != [] && stack[|stack| - 1] != ".." {
          ResolveReal(stack[..|stack| - 1], segs[1..], aboveRoot);
        } else if aboveRoot {
          ResolveReal(stack + [".."], segs[1..], aboveRoot);
        } else {
          ResolveReal(stack, segs[1..], aboveRoot);
        }
      } else {
        ResolveReal(stack + [segs[0]], segs[1..], aboveRoot);
      }
    }
  }

  /** The components of an absolute path hold neither separators nor ".", ".." or empty segments. */
  lemma ComponentsReal(p: string)
    requires Absolute(p)
    ensures Real(Components(p), false)
  {
    ResolveReal([], Split(p, '/'), false);
  }

  /**
   * A name without ".." segments lands under the directory: the result is
   * the directory's own components followed by the name's plain segments,
   * rooted at '/', with the name's trailing '/' kept.
   */
  lemma JoinUnder(dir: string, name: string)
    requires Absolute(dir) && name != [] && ".." !in Split(name, '/')
    ensures Join2(dir, name) == Render(true, Components(dir) + Plain(Split(name, '/')), Trailing(name))
  {
    var p := dir + "/" + name;
    SplitConcat(dir, name);
    assert Absolute(p);
    ResolveConcat([], Split(dir, '/'), Split(name, '/'), false);
    ResolveNoParent(Components(dir), Split(name, '/'), false);
    assert p[|p| - 1] == name[|name| - 1];
  }

  /** An absolute rendering of two non-empty runs of segments puts one '/' between them. */
  lemma RenderConcat(c: seq<string>, p: seq<string>, trailing: bool)
    requires c != [] && p != []
    ensures Render(true, c + p, trailing) == "/" + Join(c, '/') + "/" + Join(p, '/') + (if trailing then "/" else "")
  {
    JoinConcat(c, p, '/');
  }

  /**
   * When both the directory's components and the name's plain segments are
   * non-empty, the result is the normalised directory, a '/', then the
   * name's plain segments.
   */
  lemma JoinPrefix(dir: string, name: string)
    requires Absolute(dir) && name != [] && ".." !in Split(name, '/')
    requires Components(dir) != [] && Plain(Split(name, '/')) != []
    ensures Join2(dir, name) ==
      "/" + Join(Components(dir), '/') + "/" + Join(Plain(Split(name, '/')), '/') + (if Trailing(name) then "/" else "")
  {
    JoinUnder(dir, name);
    RenderConcat(Components(dir), Plain(Split(name, '/')), Trailing(name));
  }

  /** A single real segment. */
  predicate Segment(s: string)
  {
    '/' !in s && !Ignored(s) && s != ".."
  }

  /** A segment splits into itself, and a '/' in front adds an empty first part. */
  lemma SplitRooted(s: string)
    requires '/' !in s
    ensures Split("/" + s, '/') == ["", s]
  {
    assert "/" + s == "" + "/" + s;
    SplitConcat("", s);
    SplitWhole("", '/');
    SplitWhole(s, '/');
  }

  /** The segments of "/v/../e". */
  lemma SplitParent(v: string, e: string)
    requires '/' !in v && '/' !in e
    ensures Split(("/" + v) + "/" + ("../" + e), '/') == ["", v, "..", e]
  {
    SplitConcat("/" + v, "../" + e);
    SplitRooted(v);
    assert "../" + e == ".." + "/" + e;
    SplitConcat("..", e);
    SplitWhole("..", '/');
    SplitWhole(e, '/');
  }

  /** From the root, "v/../e" resolves to e alone. */
  lemma ResolveParent(v: string, e: string)
    requires Segment(v) && Segment(e)
    ensures Resolve([], ["", v, "..", e], false) == [e]
  {
    var segs := ["", v, "..", e];
    assert segs[1..] == [v, "..", e] && segs[1..][1..] == ["..", e] && segs[1..][1..][1..] == [e];
    assert Resolve([], segs, false) == Resolve([], [v, "..", e], false);
    assert Resolve([], [v, "..", e], false) == Resolve([v], ["..", e], false);
    assert Resolve([v], ["..", e], false) == Resolve([], [e], false);
    assert Resolve([], [e], false) == Resolve([e], [], false);
  }

  /** ".." climbs out of the directory: `path.join("/v", "../e")` is "/e". */
  lemma ParentEscapes(v: string, e: string)
    requires Segment(v) && Segment(e)
    ensures Join2("/" + v, "../" + e) == "/" + e
  {
    var p := ("/" + v) + "/" + ("../" + e);
    SplitParent(v, e);
    ResolveParent(v, e);
    assert Components(p) == [e];
    assert p[|p| - 1] == e[|e| - 1];
    assert Join([e], '/') == e;
  }

  /** An empty name leaves the normalised directory: `path.join("/v", "")` is "/v". */
  lemma EmptyNameKeepsDir(v: string)
    requires Segment(v)
    ensures Join2("/" + v, "") == "/" + v
  {
    SplitRooted(v);
    assert Resolve([], ["", v], false) == Resolve([], [v], false);
    assert Resolve([], [v], false) == Resolve([v], [], false);
    assert Components("/" + v) == [v];
  }
}
