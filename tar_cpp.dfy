/**
 * The in-memory index of lib/tar.cpp: `fileContents` and `isDirectory`,
 * two `std::map`s keyed by path.  A `std::map` iterates in key order, so
 * the index keeps its keys as a sorted sequence beside the two maps.
 * Decoding the archive (libarchive) is not part of this model: the
 * constructor takes the entries the reader would hand over.
 */
module TarCpp {
  import opened Wrappers
  import opened TarIndex

  class Tar {
    /** The keys of `fileContents` in the map's iteration order. */
    var paths: seq<string>
    var fileContents: map<string, string>
    var isDirectory: map<string, bool>

    /** The two maps share their keys, and `paths` lists those keys in order. */
    ghost predicate Valid()
      reads this
    {
      Sorted(paths) && fileContents.Keys == isDirectory.Keys &&
      forall p :: p in fileContents <==> p in paths
    }

    /** `Tar(binaryData)`: loads every entry of the archive. */
    constructor(entries: seq<ArchiveEntry>)
      ensures Valid()
      ensures (fileContents, isDirectory) == Load(map[], map[], entries)
    {
      paths := [];
      fileContents := map[];
      isDirectory := map[];
      new;
      LoadArchive(entries);
    }

    /** `fileContents[path] = content; isDirectory[path] = directory;` */
    method Store(path: string, content: string, directory: bool)
      requires Valid()
      modifies this
      ensures Valid()
      ensures fileContents == old(fileContents)[path := content] && isDirectory == old(isDirectory)[path := directory]
      ensures paths == InsertSorted(old(paths), path)
    {
      InsertSortedSorted(paths, path);
      forall q {
        InsertSortedMembers(paths, path, q);
      }
      fileContents := fileContents[path := content];
      isDirectory := isDirectory[path := directory];
      paths := InsertSorted(paths, path);
    }

    /** `loadArchive`: each entry in turn; a directory is stored with empty content, an entry without a path skipped. */
    method LoadArchive(entries: seq<ArchiveEntry>)
      requires Valid()
      modifies this
      ensures Valid()
      ensures (fileContents, isDirectory) == Load(old(fileContents), old(isDirectory), entries)
    {
      var i := 0;
      while i < |entries|
        invariant 0 <= i <= |entries|
        invariant Valid()
        invariant (fileContents, isDirectory) == Load(old(fileContents), old(isDirectory), entries[..i])
      {
        var entry := entries[i];
        assert entries[..i + 1][..i] == entries[..i];
        match entry.path {
          case None =>
          case Some(p) =>
            if entry.directory {
              Store(p, "", true);
            } else {
              Store(p, entry.content, false);
            }
        }
        i := i + 1;
      }
      assert entries[..i] == entries;
    }

    /**
     * `list`: the direct children of `path`, in key order.  The result is
     * sorted and holds exactly the stored paths the C++ rule keeps.
     */
    method List(path: string) returns (result: seq<string>)
      requires Valid()
      ensures result == Listing(Cpp, paths, path)
      ensures Sorted(result)
      ensures forall x :: x in result <==> x in fileContents && Child(Cpp, path, x)
    {
      var prefix := path;
      if |prefix| > 0 && prefix[|prefix| - 1] != '/' {
        prefix := prefix + "/";
      }
      assert prefix == ListPrefix(path);
      var entries := paths;
      result := [];
      var i := 0;
      while i < |entries|
        invariant 0 <= i <= |entries|
        invariant result == Listing(Cpp, entries[..i], path)
      {
        var entryPath := entries[i];
        ListingSnoc(Cpp, entries[..i], entryPath, path);
        assert entries[..i + 1] == entries[..i] + [entryPath];
        var keep := false;
        if entryPath != path && prefix <= entryPath {
          var remainder := entryPath[|prefix|..];
          var slash := Text.IndexOf(remainder, '/');
          keep := slash.None? || (|remainder| > 0 && slash == Some(|remainder| - 1));
        }
        assert keep == Child(Cpp, path, entryPath);
        if keep {
          result := result + [entryPath];
        }
        i := i + 1;
      }
      assert entries[..i] == entries;
      ListingSorted(Cpp, entries, path);
      forall x {
        ListingMembers(Cpp, entries, path, x);
      }
    }

    /** `extract`: the content of a stored file; a missing path or a directory throws. */
    function Extract(path: string): (r: Result<string, string>)
      requires Valid()
      reads this
      ensures r.Success? <==> path in fileContents && !isDirectory[path]
      ensures r.Success? ==> r.value == fileContents[path]
      ensures r.Failure? ==> r.error == "File not found or is a directory: " + path
    {
      if path in fileContents && !isDirectory[path] then Success(fileContents[path])
      else Failure("File not found or is a directory: " + path)
    }

    /** `contains`: whether the path is stored, and then whether it is a directory. */
    function Contains(path: string): (r: (bool, bool))
      requires Valid()
      reads this
      ensures r.0 <==> path in fileContents
      ensures r.1 <==> path in fileContents && isDirectory[path]
    {
      if path in fileContents then (true, isDirectory[path]) else (false, false)
    }

    /**
     * `insert`: store or overwrite a file.  Afterwards the path is a stored
     * non-directory whose content is `data`; no other path changes.
     */
    method Insert(path: string, data: string)
      requires Valid()
      modifies this
      ensures Valid()
      ensures fileContents == old(fileContents)[path := data] && isDirectory == old(isDirectory)[path := false]
      ensures Contains(path) == (true, false) && Extract(path) == Success(data)
      ensures forall q :: q != path ==> Contains(q) == old(Contains(q)) && Extract(q) == old(Extract(q))
    {
      Store(path, data, false);
    }
  }
}
