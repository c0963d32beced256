/**
 * The in-memory index of tar.ts: `fileContents` and `isDirectory`, two
 * JavaScript `Map`s keyed by path.  A `Map` iterates in the order its keys
 * were first set, so the index keeps that order as a sequence beside the
 * two maps.  Decoding the archive (tar-stream) is not part of this model:
 * `create` takes the entries the reader would hand over, each of which has
 * a name.
 */
module TarTs {
  import opened Wrappers
  import opened TarIndex

  class Tar {
    /** The keys of `fileContents` in the order they were first set. */
    var keys: seq<string>
    var fileContents: map<string, string>
    var isDirectory: map<string, bool>

    /** The two maps share their keys, and `keys` lists each of them once. */
    ghost predicate Valid()
      reads this
    {
      Distinct(keys) && fileContents.Keys == isDirectory.Keys &&
      forall p :: p in fileContents <==> p in keys
    }

    /** `new Tar(binaryData)`: empty maps until the archive is loaded. */
    constructor()
      ensures Valid()
      ensures keys == [] && fileContents == map[] && isDirectory == map[]
    {
      keys := [];
      fileContents := map[];
      isDirectory := map[];
    }

    /** `Tar.create`: a new index with every entry of the archive loaded. */
    static method Create(entries: seq<ArchiveEntry>) returns (t: Tar)
      requires forall i :: 0 <= i < |entries| ==> entries[i].path.Some?
      ensures fresh(t) && t.Valid()
      ensures (t.fileContents, t.isDirectory) == Load(map[], map[], entries)
    {
      t := new Tar();
      t.LoadArchive(entries);
    }

    /** `fileContents.set(path, content); isDirectory.set(path, directory)`: a new key goes last. */
    method Store(path: string, content: string, directory: bool)
      requires Valid()
      modifies this
      ensures Valid()
      ensures fileContents == old(fileContents)[path := content] && isDirectory == old(isDirectory)[path := directory]
      ensures keys == if path in old(fileContents) then old(keys) else old(keys) + [path]
    {
      if path !in fileContents {
        keys := keys + [path];
      }
      fileContents := fileContents[path := content];
      isDirectory := isDirectory[path := directory];
    }

    /** `loadArchive`: each entry in turn; a directory is stored with empty content. */
    method LoadArchive(entries: seq<ArchiveEntry>)
      requires Valid()
      requires forall i :: 0 <= i < |entries| ==> entries[i].path.Some?
      modifies this
      ensures Valid()
      ensures (fileContents, isDirectory) == Load(old(fileContents), old(isDirectory), entries)
    {
      var i := 0;
      while i < |entries|
        invariant 0 <= i <= |entries|
        invariant Valid()
        invariant (fileContents, isDirectory) == Load(old(fileContents), old(isDirectory), entries[..i])
      {
        var entry := entries[i];
        assert entries[..i + 1][..i] == entries[..i];
        if entry.directory {
          Store(entry.path.value, "", true);
        } else {
          Store(entry.path.value, entry.content, false);
        }
        i := i + 1;
      }
      assert entries[..i] == entries;
    }

    /**
     * `list`: the children of `path` by the tar.ts rule, in the order their
     * keys were first set, each once.
     */
    method List(path: string) returns (result: seq<string>)
      requires Valid()
      ensures result == Listing(Ts, keys, path)
      ensures Distinct(result)
      ensures forall x :: x in result <==> x in fileContents && Child(Ts, path, x)
    {
      var prefix := path;
      if |prefix| > 0 && prefix[|prefix| - 1] != '/' {
        prefix := prefix + "/";
      }
      assert prefix == ListPrefix(path);
      result := [];
      var i := 0;
      while i < |keys|
        invariant 0 <= i <= |keys|
        invariant result == Listing(Ts, keys[..i], path)
      {
        var entryPath := keys[i];
        ListingSnoc(Ts, keys[..i], entryPath, path);
        assert keys[..i + 1] == keys[..i] + [entryPath];
        if entryPath != path && prefix <= entryPath {
          var remainder := entryPath[|prefix|..];
          if '/' !in remainder || (|remainder| > 0 && remainder[|remainder| - 1] == '/') {
            result := result + [entryPath];
          }
        }
        i := i + 1;
      }
      assert keys[..i] == keys;
      ListingDistinct(Ts, keys, path);
      forall x {
        ListingMembers(Ts, keys, path, x);
      }
    }

    /** `extract`: the content of a stored file; a missing path or a directory throws. */
    function Extract(path: string): (r: Result<string, string>)
      requires Valid()
      reads this
      ensures r.Success? <==> path in fileContents && !isDirectory[path]
      ensures r.Success? ==> r.value == fileContents[path]
      ensures r.Failure? ==> r.error == "File not found or is a directory: " + path
    {
      if path in fileContents && !isDirectory[path] then Success(fileContents[path])
      else Failure("File not found or is a directory: " + path)
    }

    /** `contains`: whether the path is stored, and then whether it is a directory. */
    function Contains(path: string): (r: (bool, bool))
      requires Valid()
      reads this
      ensures r.0 <==> path in fileContents
      ensures r.1 <==> path in fileContents && isDirectory[path]
    {
      if path in fileContents then (true, isDirectory[path]) else (false, false)
    }

    /**
     * `insert`: store or overwrite a file.  Afterwards the path is a stored
     * non-directory whose content is `data`; no other path changes, and an
     * overwritten path keeps its place in the listing order.
     */
    method Insert(path: string, data: string)
      requires Valid()
      modifies this
      ensures Valid()
      ensures fileContents == old(fileContents)[path := data] && isDirectory == old(isDirectory)[path := false]
      ensures keys == if path in old(fileContents) then old(keys) else old(keys) + [path]
      ensures Contains(path) == (true, false) && Extract(path) == Success(data)
      ensures forall q :: q != path ==> Contains(q) == old(Contains(q)) && Extract(q) == old(Extract(q))
    {
      Store(path, data, false);
    }
  }
}
