/**
 * What the two in-memory tar indexes (lib/tar.cpp and tar.ts) share: the
 * entries the archive reader hands over, the prefix and direct-child rules
 * of `list`, the byte-wise order of `std::map` keys, and the listing as a
 * filter over the index's key order.
 */
module TarIndex {
  import opened Wrappers
  import opened Text

  /** An entry as the archive reader hands it over: its path (the C++ reader may give none), kind and content. */
  datatype ArchiveEntry = ArchiveEntry(path: Option<string>, directory: bool, content: string)

  /** The content an entry is loaded with: directories get the empty string. */
  function LoadedContent(e: ArchiveEntry): string
  {
    if e.directory then "" else e.content
  }

  // ------------------------------------------------------------------ list

  /** The prefix `list` matches: the path with a '/' appended unless it is empty or already ends with one. */
  function ListPrefix(path: string): (p: string)
    ensures p == [] <==> path == []
    ensures p != [] ==> p[|p| - 1] == '/'
    ensures path <= p && |p| <= |path| + 1
    ensures |p| == |path| + 1 ==> path != [] && path[|path| - 1] != '/'
  {
    if path != [] && path[|path| - 1] != '/' then path + "/" else path
  }

  /** The two copies' rules for a direct child. */
  datatype Rule = Cpp | Ts

  /**
   * Whether `list(path)` keeps `entry`: never the path itself; otherwise the
   * entry must start with the prefix, and the rest must either hold no '/'
   * or, in lib/tar.cpp, have its first '/' as its last character, in
   * tar.ts merely end with '/'.
   */
  predicate Child(rule: Rule, path: string, entry: string)
  {
    var prefix := ListPrefix(path);
    entry != path && prefix <= entry &&
    var rest := entry[|prefix|..];
    match rule
    case Cpp => IndexOf(rest, '/').None? || (|rest| > 0 && IndexOf(rest, '/') == Some(|rest| - 1))
    case Ts => '/' !in rest || (|rest| > 0 && rest[|rest| - 1] == '/')
  }

  /** The C++ rule, read plainly: after the prefix, a '/' may appear only as the last character. */
  lemma CppChildMeaning(path: string, entry: string)
    ensures Child(Cpp, path, entry) <==>
      entry != path && ListPrefix(path) <= entry &&
      var rest := entry[|ListPrefix(path)|..];
      forall k :: 0 <= k < |rest| - 1 ==> rest[k] != '/'
  {
    var prefix := ListPrefix(path);
    if entry != path && prefix <= entry {
      var rest := entry[|prefix|..];
      match IndexOf(rest, '/')
      case None =>
      case Some(i) =>
        if i == |rest| - 1 {
          assert forall k :: 0 <= k < |rest| - 1 ==> rest[k] == rest[..i][k];
        } else {
          assert rest[i] == '/';
        }
    }
  }

  /** Every entry lib/tar.cpp lists, tar.ts lists too. */
  lemma CppChildIsTsChild(path: string, entry: string)
    ensures Child(Cpp, path, entry) ==> Child(Ts, path, entry)
  {
    if Child(Cpp, path, entry) {
      var rest := entry[|ListPrefix(path)|..];
      if '/' in rest {
        var i := IndexOf(rest, '/').value;
        assert rest[i] == '/';
      }
    }
  }

  /** tar.ts also lists nested directories: "a/b/" at the top level, which lib/tar.cpp does not. */
  lemma TsListsNestedDirectories()
    ensures Child(Ts, "", "a/b/") && !Child(Cpp, "", "a/b/")
  {
    assert ListPrefix("") == "";
    var rest := "a/b/"[0..];
    assert rest == "a/b/";
    assert IndexOf(rest, '/') == Some(1) by {
      assert rest[0] != '/' && rest[1] == '/';
      assert IndexOf(rest[1..], '/') == Some(0);
    }
  }

  /** Listing a directory path also lists the directory's own entry, the one written with the trailing '/'. */
  lemma ListsOwnDirectoryEntry(rule: Rule, path: string)
    requires path != [] && path[|path| - 1] != '/'
    ensures Child(rule, path, path + "/")
  {
    assert (path + "/")[|ListPrefix(path)|..] == [];
  }

  /** The entries of `keys` that `list(path)` keeps, in the order of `keys`. */
  function Listing(rule: Rule, keys: seq<string>, path: string): (r: seq<string>)
    ensures |r| <= |keys|
  {
    if keys == [] then []
    else if Child(rule, path, keys[0]) then [keys[0]] + Listing(rule, keys[1..], path)
    else Listing(rule, keys[1..], path)
  }

  /** A listing holds exactly the direct children among the keys. */
  lemma {:induction false} ListingMembers(rule: Rule, keys: seq<string>, path: string, x: string)
    ensures x in Listing(rule, keys, path) <==> x in keys && Child(rule, path, x)
    decreases |keys|
  {
    if keys != [] {
      ListingMembers(rule, keys[1..], path, x);
      assert keys == [keys[0]] + keys[1..];
    }
  }

  /** One more key read: the listing grows by that key when it is a child. */
  lemma ListingSnoc(rule: Rule, keys: seq<string>, k: string, path: string)
    ensures Listing(rule, keys + [k], path) == Listing(rule, keys, path) + (if Child(rule, path, k) then [k] else [])
    decreases |keys|
  {
    if keys != [] {
      assert (keys + [k])[1..] == keys[1..] + [k];
      ListingSnoc(rule, keys[1..], k, path);
    } else {
      assert [k][1..] == [];
    }
  }

  // ----------------------------------------------------------------- order

  /** `std::string`'s `<`: byte-wise, a proper prefix first. */
  predicate StrLess(a: string, b: string)
  {
    if |a| == 0 then |b| > 0
    else if |b| == 0 then false
    else if a[0] != b[0] then a[0] < b[0]
    else StrLess(a[1..], b[1..])
  }

  lemma {:induction false} StrLessIrreflexive(a: string)
    ensures !StrLess(a, a)
  {
    if |a| > 0 {
      StrLessIrreflexive(a[1..]);
    }
  }

  lemma {:induction false} StrLessTransitive(a: string, b: string, c: string)
    requires StrLess(a, b) && StrLess(b, c)
    ensures StrLess(a, c)
  {
    if |a| > 0 && |b| > 0 && |c| > 0 && a[0] == b[0] == c[0] {
      StrLessTransitive(a[1..], b[1..], c[1..]);
    }
  }

  lemma {:induction false} StrLessTotal(a: string, b: string)
    ensures a == b || StrLess(a, b) || StrLess(b, a)
  {
    if |a| > 0 && |b| > 0 && a[0] == b[0] {
      StrLessTotal(a[1..], b[1..]);
      if a[1..] == b[1..] {
        assert a == [a[0]] + a[1..] && b == [b[0]] + b[1..];
      }
    }
  }

  /** Keys in `std::map` order: strictly increasing. */
  predicate Sorted(keys: seq<string>)
  {
    forall i, j :: 0 <= i < j < |keys| ==> StrLess(keys[i], keys[j])
  }

  /** No key twice. */
  predicate Distinct(keys: seq<string>)
  {
    forall i, j :: 0 <= i < j < |keys| ==> keys[i] != keys[j]
  }

  lemma SortedDistinct(keys: seq<string>)
    requires Sorted(keys)
    ensures Distinct(keys)
  {
    forall i, j | 0 <= i < j < |keys|
      ensures keys[i] != keys[j]
    {
      if keys[i] == keys[j] {
        StrLessIrreflexive(keys[i]);
      }
    }
  }

  /** Where a `std::map` puts a new key: before the first larger one; an existing key stays where it is. */
  function InsertSorted(keys: seq<string>, x: string): seq<string>
  {
    if keys == [] then [x]
    else if keys[0] == x then keys
    else if StrLess(x, keys[0]) then [x] + keys
    else [keys[0]] + InsertSorted(keys[1..], x)
  }

  lemma {:induction false} InsertSortedMembers(keys: seq<string>, x: string, y: string)
    ensures y in InsertSorted(keys, x) <==> y in keys || y == x
    decreases |keys|
  {
    if keys != [] && keys[0] != x && !StrLess(x, keys[0]) {
      InsertSortedMembers(keys[1..], x, y);
      assert keys == [keys[0]] + keys[1..];
    }
  }

  /** Inserting keeps the keys in order. */
  lemma {:induction false} InsertSortedSorted(keys: seq<string>, x: string)
    requires Sorted(keys)
    ensures Sorted(InsertSorted(keys, x))
    decreases |keys|
  {
    if keys == [] || keys[0] == x {
    } else if StrLess(x, keys[0]) {
      var r := [x] + keys;
      forall i, j | 0 <= i < j < |r|
        ensures StrLess(r[i], r[j])
      {
        if i == 0 && j > 1 {
          StrLessTransitive(x, keys[0], keys[j - 1]);
        }
      }
    } else {
      StrLessTotal(x, keys[0]);
      var tail := InsertSorted(keys[1..], x);
      InsertSortedSorted(keys[1..], x);
      var r := [keys[0]] + tail;
      forall j | 0 < j < |r|
        ensures StrLess(keys[0], r[j])
      {
        assert r[j] in tail;
        InsertSortedMembers(keys[1..], x, r[j]);
      }
    }
  }

  /** A listing of keys in `std::map` order is itself in that order. */
  lemma {:induction false} ListingSorted(rule: Rule, keys: seq<string>, path: string)
    requires Sorted(keys)
    ensures Sorted(Listing(rule, keys, path))
    decreases |keys|
  {
    if keys != [] {
      var tail := Listing(rule, keys[1..], path);
      ListingSorted(rule, keys[1..], path);
      if Child(rule, path, keys[0]) {
        forall j | 0 <= j < |tail|
          ensures StrLess(keys[0], tail[j])
        {
          ListingMembers(rule, keys[1..], path, tail[j]);
          var k :| 0 <= k < |keys[1..]| && keys[1..][k] == tail[j];
          assert keys[k + 1] == tail[j];
        }
      }
    }
  }

  /** A listing of distinct keys lists nothing twice. */
  lemma {:induction false} ListingDistinct(rule: Rule, keys: seq<string>, path: string)
    requires Distinct(keys)
    ensures Distinct(Listing(rule, keys, path))
    decreases |keys|
  {
    if keys != [] {
      var tail := Listing(rule, keys[1..], path);
      ListingDistinct(rule, keys[1..], path);
      if Child(rule, path, keys[0]) {
        ListingMembers(rule, keys[1..], path, keys[0]);
        assert keys[0] !in keys[1..];
        assert keys[0] !in tail;
      }
    }
  }

  // -------------------------------------------------------------- loading

  /** Loading `entries` into the two maps, in order; an entry without a path is skipped. */
  function Load(contents: map<string, string>, dirs: map<string, bool>, entries: seq<ArchiveEntry>)
    : (map<string, string>, map<string, bool>)
    decreases |entries|
  {
    if entries == [] then (contents, dirs)
    else
      var e := entries[|entries| - 1];
      var before := Load(contents, dirs, entries[..|entries| - 1]);
      match e.path
      case None => before
      case Some(p) => (before.0[p := LoadedContent(e)], before.1[p := e.directory])
  }

  /**
   * After loading, a path holds what its LAST entry in the archive says:
   * a directory with the empty content, a file with its content.
   */
  lemma {:induction false} LoadedLast(contents: map<string, string>, dirs: map<string, bool>, entries: seq<ArchiveEntry>, i: nat)
    requires i < |entries| && entries[i].path.Some?
    requires forall j :: i < j < |entries| ==> entries[j].path != entries[i].path
    ensures entries[i].path.value in Load(contents, dirs, entries).0 && entries[i].path.value in Load(contents, dirs, entries).1
    ensures Load(contents, dirs, entries).0[entries[i].path.value] == LoadedContent(entries[i])
    ensures Load(contents, dirs, entries).1[entries[i].path.value] == entries[i].directory
    decreases |entries|
  {
    if i < |entries| - 1 {
      var front := entries[..|entries| - 1];
      assert front[i] == entries[i];
      LoadedLast(contents, dirs, front, i);
    }
  }

  /** Loading keeps the two maps on the same paths: the ones already there and those of the entries. */
  lemma {:induction false} LoadedPaths(contents: map<string, string>, dirs: map<string, bool>, entries: seq<ArchiveEntry>, p: string)
    requires contents.Keys == dirs.Keys
    ensures Load(contents, dirs, entries).0.Keys == Load(contents, dirs, entries).1.Keys
    ensures p in Load(contents, dirs, entries).0 <==> p in contents || exists j :: 0 <= j < |entries| && entries[j].path == Some(p)
    decreases |entries|
  {
    if entries != [] {
      var front := entries[..|entries| - 1];
      LoadedPaths(contents, dirs, front, p);
      if exists j :: 0 <= j < |front| && front[j].path == Some(p) {
        var j :| 0 <= j < |front| && front[j].path == Some(p);
        assert entries[j] == front[j];
      }
      if exists j :: 0 <= j < |entries| && entries[j].path == Some(p) {
        var j :| 0 <= j < |entries| && entries[j].path == Some(p);
        if j < |front| {
          assert front[j] == entries[j];
        }
      }
    }
  }
}
