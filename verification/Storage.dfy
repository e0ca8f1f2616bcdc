/** The key space of the S3 provider, against the in-memory provider that the tests use. */
module Storage {
  import opened Wrappers
  import opened Decode
  import opened RunViews

  type Objects = map<string, seq<Byte>>

  datatype RemoteFile = RemoteFile(id: string, name: string)

  // ---------- Keys ----------

  function StripLeft(path: string): string {
    if path != [] && path[0] == '/' then StripLeft(path[1..]) else path
  }

  function StripRight(path: string): string {
    if path != [] && path[|path| - 1] == '/' then StripRight(path[..|path| - 1]) else path
  }

  function NormalizePrefix(path: string): string {
    var stripped := StripRight(StripLeft(path));
    if stripped == "" then "" else stripped + "/"
  }

  /** Names that stand directly under a prefix. */
  predicate GoodName(name: string) {
    name != [] && '/' !in name
  }

  function Folder(to: Destination): string {
    if to == ToProcessed then "processed/" else "failed/"
  }

  function SourceKey(prefix: string, name: string): string {
    prefix + name
  }

  function MovedKey(prefix: string, to: Destination, name: string): string {
    prefix + Folder(to) + name
  }

  /** The keys that a listing with delimiter `/` returns. */
  predicate IsDirect(prefix: string, key: string) {
    prefix <= key && '/' !in key[|prefix|..]
  }

  lemma {:induction false} StripLeftMeaning(path: string)
    ensures var s := StripLeft(path); (s == [] || s[0] != '/') && |s| <= |path| && s == path[|path| - |s|..]
    ensures path == [] || path[0] != '/' ==> StripLeft(path) == path
  {
    if path != [] && path[0] == '/' { StripLeftMeaning(path[1..]); }
  }

  lemma {:induction false} StripRightMeaning(path: string)
    ensures var s := StripRight(path); s <= path && (s == [] || s[|s| - 1] != '/')
    ensures path == [] || path[|path| - 1] != '/' ==> StripRight(path) == path
  {
    if path != [] && path[|path| - 1] == '/' { StripRightMeaning(path[..|path| - 1]); }
  }

  lemma StrippedPath(path: string)
    ensures var s := StripRight(StripLeft(path));
            s == "" || (s[0] != '/' && s[|s| - 1] != '/')
  {
    StripLeftMeaning(path);
    StripRightMeaning(StripLeft(path));
  }

  lemma NormalizeStripped(s: string)
    requires s != "" && s[0] != '/' && s[|s| - 1] != '/'
    ensures NormalizePrefix(s + "/") == s + "/"
  {
    var path := s + "/";
    StripLeftMeaning(path);
    assert path[..|path| - 1] == s;
    StripRightMeaning(s);
  }

  predicate AllSlashes(s: string) {
    forall i :: 0 <= i < |s| ==> s[i] == '/'
  }

  lemma {:induction false} StripLeftOf(slashes: string, rest: string)
    requires AllSlashes(slashes) && (rest == "" || rest[0] != '/')
    ensures StripLeft(slashes + rest) == rest
  {
    if slashes == "" {
      assert slashes + rest == rest;
    } else {
      StripLeftOf(slashes[1..], rest);
      assert (slashes + rest)[1..] == slashes[1..] + rest;
    }
  }

  lemma {:induction false} StripRightOf(rest: string, slashes: string)
    requires AllSlashes(slashes) && (rest == "" || rest[|rest| - 1] != '/')
    ensures StripRight(rest + slashes) == rest
  {
    if slashes == "" {
      assert rest + slashes == rest;
    } else {
      var init := slashes[..|slashes| - 1];
      StripRightOf(rest, init);
      assert (rest + slashes)[..|rest + slashes| - 1] == rest + init;
    }
  }

  /** Slashes around a folder are dropped and one is put after it; a path of slashes only is no folder. */
  lemma NormalizeFolder(before: string, folder: string, after: string)
    requires AllSlashes(before) && AllSlashes(after)
    requires folder == "" || (folder[0] != '/' && folder[|folder| - 1] != '/')
    ensures NormalizePrefix(before + folder + after) == if folder == "" then "" else folder + "/"
  {
    if folder == "" {
      StripLeftOf(before + after, "");
      assert before + folder + after == before + after + "";
    } else {
      StripLeftOf(before, folder + after);
      assert before + folder + after == before + (folder + after);
      StripRightOf(folder, after);
    }
  }

  /** A prefix is empty, or ends with a slash and does not begin with one; normalising it again changes
      nothing. So it is a prefix only of keys inside its folder. */
  lemma NormalizePrefixMeaning(path: string)
    ensures var prefix := NormalizePrefix(path);
            && (prefix == ""
                || (|prefix| > 1 && prefix[0] != '/' && prefix[|prefix| - 2] != '/' && prefix[|prefix| - 1] == '/'))
            && NormalizePrefix(prefix) == prefix
  {
    StrippedPath(path);
    var stripped := StripRight(StripLeft(path));
    if stripped != "" { NormalizeStripped(stripped); }
  }

  lemma DirectKeys(prefix: string, name: string, to: Destination)
    requires GoodName(name)
    ensures IsDirect(prefix, SourceKey(prefix, name)) && SourceKey(prefix, name) != prefix
    ensures !IsDirect(prefix, MovedKey(prefix, to, name))
    ensures SourceKey(prefix, name)[|prefix|..] == name
  {
    var key := MovedKey(prefix, to, name);
    var slash := |prefix| + |Folder(to)| - 1;
    assert key[slash] == '/' && key[|prefix|..][slash - |prefix|] == '/';
  }

  /** Different names have different keys, in each folder and across folders. */
  lemma KeysDiffer(prefix: string, a: string, to: Destination, b: string, to': Destination)
    requires GoodName(a) && GoodName(b)
    ensures SourceKey(prefix, a) == SourceKey(prefix, b) <==> a == b
    ensures SourceKey(prefix, a) != MovedKey(prefix, to', b)
    ensures MovedKey(prefix, to, a) == MovedKey(prefix, to', b) <==> to == to' && a == b
  {
    DirectKeys(prefix, a, to);
    DirectKeys(prefix, b, to');
    assert MovedKey(prefix, to, a)[|prefix|] == Folder(to)[0];
    assert MovedKey(prefix, to', b)[|prefix|] == Folder(to')[0];
    assert MovedKey(prefix, to, a)[|prefix| + |Folder(to)|..] == a;
    assert MovedKey(prefix, to', b)[|prefix| + |Folder(to')|..] == b;
  }

  // ---------- Listing ----------

  /** What the bucket lists under a prefix: objects directly under it, and folders. */
  datatype Entry = Object(key: string) | CommonPrefix(folder: string)

  /** The bucket's listing: every direct key exactly once, in some order, among the folders. */
  ghost predicate IsListing(objects: Objects, prefix: string, entries: seq<Entry>) {
    && (forall i :: 0 <= i < |entries| && entries[i].Object? ==>
          entries[i].key in objects && IsDirect(prefix, entries[i].key))
    && (forall key :: key in objects && IsDirect(prefix, key) ==> Object(key) in entries)
    && (forall i, j :: 0 <= i < j < |entries| && entries[i].Object? ==> entries[i] != entries[j])
  }

  function NameUnder(prefix: string, key: string): string {
    if |prefix| <= |key| then key[|prefix|..] else ""
  }

  /** The files of a listing: folders and the folder's own marker are left out. */
  function FilesOf(prefix: string, entries: seq<Entry>): seq<RemoteFile> {
    if entries == [] then []
    else
      var last := entries[|entries| - 1];
      FilesOf(prefix, entries[..|entries| - 1])
      + if last.Object? && last.key != prefix then [RemoteFile(last.key, NameUnder(prefix, last.key))] else []
  }

  /** The files of a listing are exactly the good names under the prefix, each once. */
  lemma {:induction false} FilesOfListing(objects: Objects, prefix: string, entries: seq<Entry>)
    requires forall i :: 0 <= i < |entries| && entries[i].Object? ==>
               entries[i].key in objects && IsDirect(prefix, entries[i].key)
    requires forall i, j :: 0 <= i < j < |entries| && entries[i].Object? ==> entries[i] != entries[j]
    ensures forall f :: f in FilesOf(prefix, entries) <==>
              f.id == SourceKey(prefix, f.name) && GoodName(f.name) && Object(f.id) in entries
    ensures var files := FilesOf(prefix, entries); forall i, j :: 0 <= i < j < |files| ==> files[i] != files[j]
  {
    if entries != [] {
      var init, last := entries[..|entries| - 1], entries[|entries| - 1];
      FilesOfListing(objects, prefix, init);
      assert forall e :: e in entries <==> e in init || e == last;
      assert last.Object? ==> last !in init;
      if last.Object? && last.key != prefix {
        var file, files := RemoteFile(last.key, NameUnder(prefix, last.key)), FilesOf(prefix, init);
        assert last.key == SourceKey(prefix, file.name);
        forall i | 0 <= i < |files| ensures files[i] != file {
          assert files[i] in files;
        }
        assert FilesOf(prefix, entries) == files + [file];
      } else {
        assert FilesOf(prefix, entries) == FilesOf(prefix, init);
      }
    }
  }

  class S3Provider {
    const prefix: string
    var objects: Objects
    var budget: nat // calls that succeed before one fails

    constructor (path: string, objects: Objects, budget: nat)
      ensures prefix == NormalizePrefix(path) && this.objects == objects
    {
      prefix := NormalizePrefix(path);
      this.objects, this.budget := objects, budget;
    }

    /** A call to the bucket, which may fail before it has any effect. */
    method Call() returns (o: Outcome)
      modifies this`budget
      ensures o == Stopped <==> old(budget) == 0
      ensures budget == if o == Stopped then 0 else old(budget) - 1
    {
      if budget == 0 {
        return Stopped;
      }
      budget := budget - 1;
      return Completed;
    }

    method UploadFile(name: string, content: seq<Byte>) returns (o: Outcome, file: RemoteFile)
      modifies this
      ensures o == Stopped <==> old(budget) == 0
      ensures o == Stopped ==> objects == old(objects)
      ensures o == Completed ==> objects == old(objects)[prefix + name := content]
      ensures file == RemoteFile(prefix + name, name)
    {
      file := RemoteFile(SourceKey(prefix, name), name);
      :- Call();
      objects := objects[file.id := content];
      return Completed, file;
    }

    /** One page of a listing from an entry on: at least one entry and at most `size`. */
    method ListObjectsV2(entries: seq<Entry>, start: nat, size: nat)
      returns (page: seq<Entry>, truncated: bool, next: nat)
      requires start <= |entries|
      ensures start <= next <= |entries| && page == entries[start..next]
      ensures (truncated <==> next < |entries|) && (truncated ==> next > start)
    {
      next := start + if size == 0 then 1 else size;
      if next > |entries| {
        next := |entries|;
      }
      page := entries[start..next];
      truncated := next < |entries|;
    }

    /** The files of one page join those found so far. */
    method AppendFiles(files: seq<RemoteFile>, page: seq<Entry>, ghost before: seq<Entry>)
      returns (more: seq<RemoteFile>)
      requires files == FilesOf(prefix, before)
      ensures more == FilesOf(prefix, before + page)
    {
      more := files;
      assert before + page[..0] == before;
      for i := 0 to |page|
        invariant more == FilesOf(prefix, before + page[..i])
      {
        assert (before + page[..i + 1])[..|before| + i] == before + page[..i];
        if page[i].Object? && page[i].key != prefix {
          more := more + [RemoteFile(page[i].key, NameUnder(prefix, page[i].key))];
        }
      }
      assert page[..|page|] == page;
    }

    /** `list_new_files`: whatever the page sizes, the files of the listing. */
    method ListNewFiles(entries: seq<Entry>, sizes: nat -> nat) returns (o: Outcome, files: seq<RemoteFile>)
      requires IsListing(objects, prefix, entries)
      modifies this`budget
      ensures o == Completed ==> files == FilesOf(prefix, entries)
      ensures o == Completed ==>
                forall key, name :: RemoteFile(key, name) in files <==>
                  key == prefix + name && name != "" && '/' !in name && Object(key) in entries
      ensures Spends(old(budget), budget, |entries| + 1, o)
    {
      files := [];
      var token, pages, truncated := 0, 0, true;
      while truncated
        invariant budget <= old(budget) <= budget + token + (if truncated then 0 else 1)
        invariant token <= |entries| && (truncated || token == |entries|)
        invariant files == FilesOf(prefix, entries[..token])
        decreases |entries| - token, truncated
      {
        :- Call();
        var page, next;
        page, truncated, next := ListObjectsV2(entries, token, sizes(pages));
        files := AppendFiles(files, page, entries[..token]);
        assert entries[..token] + page == entries[..next];
        token, pages := next, pages + 1;
      }
      assert entries[..token] == entries;
      FilesOfListing(objects, prefix, entries);
      return Completed, files;
    }

    /** `move_file`: copy, then delete. Cut off after the copy, the file stands under both keys. */
    method MoveFile(file: RemoteFile, to: Destination) returns (o: Outcome)
      modifies this
      ensures o == Completed <==> old(budget) >= 2 && file.id in old(objects)
      ensures var target := prefix + (match to case ToProcessed => "processed/" case ToFailed => "failed/") + file.name;
              objects == if o == Completed then Moved(old(objects), file.id, target)
                         else if old(budget) == 1 && file.id in old(objects) then Copied(old(objects), file.id, target)
                         else old(objects)
      ensures var target := MovedKey(prefix, to, file.name);
              file.id in old(objects) && target != file.id ==>
                || (file.id in objects && objects[file.id] == old(objects)[file.id])
                || (target in objects && objects[target] == old(objects)[file.id])
    {
      var target := MovedKey(prefix, to, file.name);
      :- Call();
      if file.id !in objects {
        return Stopped;
      }
      objects := objects[target := objects[file.id]];
      :- Call();
      objects := objects - {file.id};
      return Completed;
    }
  }

  function Copied(objects: Objects, source: string, target: string): Objects
    requires source in objects
  {
    objects[target := objects[source]]
  }

  function Moved(objects: Objects, source: string, target: string): Objects
    requires source in objects
  {
    Copied(objects, source, target) - {source}
  }
}
