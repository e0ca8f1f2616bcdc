/** The S3 provider behaves as the in-memory one. */
module StorageRefinement {
  import opened Wrappers
  import opened Decode
  import opened RunViews
  import opened Storage

  /** A file of the in-memory provider, by its place; `moved` tells where to, if anywhere. */
  datatype Stored = Stored(name: string, content: seq<Byte>, moved: Option<Destination>)

  /** What a client does: it uploads under a name, moves the `i`-th file it uploaded, or has that move
      cut off after the copy. */
  datatype Op =
    | Upload(name: string, content: seq<Byte>)
    | Move(i: nat, to: Destination)
    | CutMove(i: nat, to: Destination)

  function FakeStep(files: seq<Stored>, op: Op): seq<Stored> {
    match op
    case Upload(name, content) => files + [Stored(name, content, None)]
    case Move(i, to) => if i < |files| then files[i := files[i].(moved := Some(to))] else files
    case CutMove(_, _) => files
  }

  class FakeProvider {
    var files: seq<Stored>

    constructor ()
      ensures files == []
    {
      files := [];
    }

    method UploadFile(name: string, content: seq<Byte>) returns (id: nat)
      modifies this
      ensures id == |old(files)| && files == FakeStep(old(files), Upload(name, content))
    {
      id := |files|;
      files := files + [Stored(name, content, None)];
    }

    method ListNewFiles() returns (ids: seq<nat>)
      ensures forall i :: i in ids <==> 0 <= i < |files| && files[i].moved == None
      ensures forall k, l :: 0 <= k < l < |ids| ==> ids[k] < ids[l]
    {
      ids := [];
      for i := 0 to |files|
        invariant forall k :: k in ids <==> 0 <= k < i && files[k].moved == None
        invariant forall k :: 0 <= k < |ids| ==> ids[k] < i
        invariant forall k, l :: 0 <= k < l < |ids| ==> ids[k] < ids[l]
      {
        if files[i].moved == None {
          ids := ids + [i];
        }
      }
    }

    method MoveFile(id: nat, to: Destination)
      requires id < |files|
      modifies this
      ensures files == FakeStep(old(files), Move(id, to))
    {
      files := files[id := files[id].(moved := Some(to))];
    }
  }

  // ---------- The two side by side ----------

  /** The same operation on the bucket; `files` gives the names that the client was handed. */
  function S3Step(prefix: string, objects: Objects, files: seq<Stored>, op: Op): Objects {
    match op
    case Upload(name, content) => objects[SourceKey(prefix, name) := content]
    case Move(i, to) =>
      if i < |files| && SourceKey(prefix, files[i].name) in objects
      then Moved(objects, SourceKey(prefix, files[i].name), MovedKey(prefix, to, files[i].name))
      else objects
    case CutMove(i, to) =>
      if i < |files| && SourceKey(prefix, files[i].name) in objects
      then Copied(objects, SourceKey(prefix, files[i].name), MovedKey(prefix, to, files[i].name))
      else objects
  }

  predicate Listed(files: seq<Stored>, name: string) {
    exists i :: 0 <= i < |files| && files[i].name == name && files[i].moved == None
  }

  /** An upload goes under a good name that is not listed at the moment; only listed files are moved. */
  predicate Allowed(files: seq<Stored>, op: Op) {
    match op
    case Upload(name, _) => GoodName(name) && !Listed(files, name)
    case Move(i, _) => i < |files| && files[i].moved == None
    case CutMove(i, _) => i < |files| && files[i].moved == None
  }

  /** The listed names of the bucket are those of the unmoved files, with the same bytes, and no two
      unmoved files have the same name. */
  ghost predicate Refines(prefix: string, objects: Objects, files: seq<Stored>) {
    && (forall i :: 0 <= i < |files| ==> GoodName(files[i].name))
    && (forall i :: 0 <= i < |files| && files[i].moved == None ==>
          var key := SourceKey(prefix, files[i].name); key in objects && objects[key] == files[i].content)
    && (forall name :: GoodName(name) && SourceKey(prefix, name) in objects ==> Listed(files, name))
    && (forall i, j :: 0 <= i < j < |files| && files[i].moved == None && files[j].moved == None ==>
          files[i].name != files[j].name)
  }

  lemma UploadRefines(prefix: string, objects: Objects, files: seq<Stored>, name: string, content: seq<Byte>)
    requires Refines(prefix, objects, files) && Allowed(files, Upload(name, content))
    ensures var op := Upload(name, content);
            Refines(prefix, S3Step(prefix, objects, files, op), FakeStep(files, op))
  {
    var files' := FakeStep(files, Upload(name, content));
    var objects' := S3Step(prefix, objects, files, Upload(name, content));
    forall i | 0 <= i < |files'| && files'[i].moved == None
      ensures var key := SourceKey(prefix, files'[i].name); key in objects' && objects'[key] == files'[i].content
    {
      KeysDiffer(prefix, files'[i].name, ToFailed, name, ToFailed);
    }
    forall other | GoodName(other) && SourceKey(prefix, other) in objects' ensures Listed(files', other) {
      KeysDiffer(prefix, other, ToFailed, name, ToFailed);
      if other == name {
        assert files'[|files|].name == name;
      } else {
        var i :| 0 <= i < |files| && files[i].name == other && files[i].moved == None;
        assert files'[i] == files[i];
      }
    }
  }

  lemma MoveRefines(prefix: string, objects: Objects, files: seq<Stored>, i: nat, to: Destination)
    requires Refines(prefix, objects, files) && Allowed(files, Move(i, to))
    ensures Refines(prefix, S3Step(prefix, objects, files, Move(i, to)), FakeStep(files, Move(i, to)))
  {
    var files' := FakeStep(files, Move(i, to));
    var objects' := S3Step(prefix, objects, files, Move(i, to));
    forall j | 0 <= j < |files'| && files'[j].moved == None
      ensures var key := SourceKey(prefix, files'[j].name); key in objects' && objects'[key] == files'[j].content
    {
      KeysDiffer(prefix, files[j].name, to, files[i].name, to);
    }
    forall other | GoodName(other) && SourceKey(prefix, other) in objects' ensures Listed(files', other) {
      KeysDiffer(prefix, other, to, files[i].name, to);
      var j :| 0 <= j < |files| && files[j].name == other && files[j].moved == None;
      assert files'[j] == files[j];
    }
  }

  /** A copy that is not followed by the delete changes nothing that either provider lists. */
  lemma CutMoveRefines(prefix: string, objects: Objects, files: seq<Stored>, i: nat, to: Destination)
    requires Refines(prefix, objects, files) && Allowed(files, CutMove(i, to))
    ensures Refines(prefix, S3Step(prefix, objects, files, CutMove(i, to)), FakeStep(files, CutMove(i, to)))
  {
    var objects' := S3Step(prefix, objects, files, CutMove(i, to));
    forall j | 0 <= j < |files| && files[j].moved == None
      ensures var key := SourceKey(prefix, files[j].name); key in objects' && objects'[key] == files[j].content
    {
      KeysDiffer(prefix, files[j].name, to, files[i].name, to);
    }
    forall other | GoodName(other) && SourceKey(prefix, other) in objects' ensures Listed(files, other) {
      KeysDiffer(prefix, other, to, files[i].name, to);
    }
  }

  // ---------- Any sequence of operations ----------

  predicate AllAllowed(files: seq<Stored>, ops: seq<Op>)
    decreases |ops|
  {
    ops == [] || (Allowed(files, ops[0]) && AllAllowed(FakeStep(files, ops[0]), ops[1..]))
  }

  function FakeAfter(files: seq<Stored>, ops: seq<Op>): seq<Stored>
    decreases |ops|
  {
    if ops == [] then files else FakeAfter(FakeStep(files, ops[0]), ops[1..])
  }

  function S3After(prefix: string, objects: Objects, files: seq<Stored>, ops: seq<Op>): Objects
    decreases |ops|
  {
    if ops == [] then objects
    else S3After(prefix, S3Step(prefix, objects, files, ops[0]), FakeStep(files, ops[0]), ops[1..])
  }

  lemma {:induction false} RefinesAfter(prefix: string, objects: Objects, files: seq<Stored>, ops: seq<Op>)
    requires Refines(prefix, objects, files) && AllAllowed(files, ops)
    ensures Refines(prefix, S3After(prefix, objects, files, ops), FakeAfter(files, ops))
    decreases |ops|
  {
    if ops != [] {
      match ops[0] {
        case Upload(name, content) => UploadRefines(prefix, objects, files, name, content);
        case Move(i, to) => MoveRefines(prefix, objects, files, i, to);
        case CutMove(i, to) => CutMoveRefines(prefix, objects, files, i, to);
      }
      RefinesAfter(prefix, S3Step(prefix, objects, files, ops[0]), FakeStep(files, ops[0]), ops[1..]);
    }
  }

  /** After any sequence of uploads under good, unlisted names and of moves of listed files, some of them
      cut off after the copy and perhaps repeated, from a bucket with no file directly under the prefix,
      the listing of the bucket is the listing of the in-memory provider: the same names, each once, with
      the same bytes; a moved file is not among them. */
  lemma S3RefinesInMemory(prefix: string, objects: Objects, ops: seq<Op>, entries: seq<Entry>)
    requires forall name :: GoodName(name) ==> SourceKey(prefix, name) !in objects
    requires AllAllowed([], ops) && IsListing(S3After(prefix, objects, [], ops), prefix, entries)
    ensures var files, listed, after := FakeAfter([], ops), FilesOf(prefix, entries), S3After(prefix, objects, [], ops);
            && (forall f :: f in listed ==> f.id in after && Listed(files, f.name))
            && (forall i :: 0 <= i < |files| && files[i].moved == None ==>
                  var f := RemoteFile(SourceKey(prefix, files[i].name), files[i].name);
                  f in listed && f.id in after && after[f.id] == files[i].content)
            && (forall k, l :: 0 <= k < l < |listed| ==> listed[k].name != listed[l].name)
  {
    RefinesAfter(prefix, objects, [], ops);
    var files, listed, after := FakeAfter([], ops), FilesOf(prefix, entries), S3After(prefix, objects, [], ops);
    FilesOfListing(after, prefix, entries);
    ListedIsDirect(prefix, after, entries);
    forall i | 0 <= i < |files| && files[i].moved == None
      ensures var f := RemoteFile(SourceKey(prefix, files[i].name), files[i].name); f in listed
    {
      DirectKeys(prefix, files[i].name, ToFailed);
    }
    forall k, l | 0 <= k < l < |listed| ensures listed[k].name != listed[l].name {
      assert listed[k] in listed && listed[l] in listed;
    }
  }

  lemma ListedIsDirect(prefix: string, objects: Objects, entries: seq<Entry>)
    requires IsListing(objects, prefix, entries)
    ensures forall f :: f in FilesOf(prefix, entries) ==>
              f.id in objects && GoodName(f.name) && f.id == SourceKey(prefix, f.name)
  {
    FilesOfListing(objects, prefix, entries);
    forall f | f in FilesOf(prefix, entries) ensures f.id in objects {
      var i :| 0 <= i < |entries| && entries[i] == Object(f.id);
    }
  }

  // ---------- Nothing else changes, nothing is lost ----------

  /** An operation changes the keys it is about and no others; moving is invisible to everything but
      the source and the target. */
  lemma OnlyOwnKeysChange(prefix: string, objects: Objects, files: seq<Stored>, op: Op, key: string)
    requires match op
             case Upload(name, _) => key != SourceKey(prefix, name)
             case Move(i, to) =>
               i < |files| ==> key != SourceKey(prefix, files[i].name) && key != MovedKey(prefix, to, files[i].name)
             case CutMove(i, to) => i < |files| ==> key != MovedKey(prefix, to, files[i].name)
    ensures var objects' := S3Step(prefix, objects, files, op);
            (key in objects' <==> key in objects) && (key in objects ==> objects'[key] == objects[key])
  {
  }

  /** Where a file of the client is in the bucket. */
  function KeyOf(prefix: string, file: Stored): string {
    if file.moved == None then SourceKey(prefix, file.name) else MovedKey(prefix, file.moved.value, file.name)
  }

  /** Every file ever uploaded is where it was put last. */
  predicate NothingLost(prefix: string, objects: Objects, files: seq<Stored>) {
    forall i :: 0 <= i < |files| ==> StaysAt(prefix, objects, files, i)
  }

  predicate StaysAt(prefix: string, objects: Objects, files: seq<Stored>, i: nat)
    requires i < |files|
  {
    KeyOf(prefix, files[i]) in objects && objects[KeyOf(prefix, files[i])] == files[i].content
  }

  /** The operation takes file `i` away or puts other bytes in its place: an upload under the name of an
      unmoved file; a move of a file whose key another unmoved file shares, or to where a file of that
      name was moved before. */
  predicate Disturbs(files: seq<Stored>, op: Op, i: nat)
    requires i < |files|
  {
    match op
    case Upload(name, content) =>
      files[i].moved == None && files[i].name == name && files[i].content != content
    case Move(k, to) =>
      && k < |files| && i != k && files[i].name == files[k].name
      && (files[i].moved == None || (files[i].moved == Some(to) && files[i].content != files[k].content))
    case CutMove(k, to) =>
      && k < |files| && files[i].name == files[k].name
      && files[i].moved == Some(to) && files[i].content != files[k].content
  }

  /** An operation loses no file if and only if it disturbs none. */
  lemma NothingLostIff(prefix: string, objects: Objects, files: seq<Stored>, op: Op)
    requires NothingLost(prefix, objects, files)
    requires forall i :: 0 <= i < |files| ==> GoodName(files[i].name)
    requires op.Upload? ==> GoodName(op.name)
    requires !op.Upload? ==> op.i < |files| && files[op.i].moved == None
    ensures NothingLost(prefix, S3Step(prefix, objects, files, op), FakeStep(files, op)) <==>
            forall i :: 0 <= i < |files| ==> !Disturbs(files, op, i)
  {
    var files', objects' := FakeStep(files, op), S3Step(prefix, objects, files, op);
    forall i | 0 <= i < |files|
      ensures StaysAt(prefix, objects', files', i) <==> !Disturbs(files, op, i)
    {
      StepAt(prefix, objects, files, op, i);
    }
    if op.Upload? {
      assert StaysAt(prefix, objects', files', |files|);
    }
  }

  lemma StepAt(prefix: string, objects: Objects, files: seq<Stored>, op: Op, i: nat)
    requires NothingLost(prefix, objects, files) && i < |files|
    requires forall i :: 0 <= i < |files| ==> GoodName(files[i].name)
    requires op.Upload? ==> GoodName(op.name)
    requires !op.Upload? ==> op.i < |files| && files[op.i].moved == None
    ensures StaysAt(prefix, S3Step(prefix, objects, files, op), FakeStep(files, op), i) <==> !Disturbs(files, op, i)
  {
    var name := if op.Upload? then op.name else files[op.i].name;
    var to := if op.Upload? then ToFailed else op.to;
    var from := if files[i].moved == None then ToFailed else files[i].moved.value;
    assert StaysAt(prefix, objects, files, i);
    assert !op.Upload? ==> StaysAt(prefix, objects, files, op.i);
    KeysDiffer(prefix, files[i].name, from, name, to);
    KeysDiffer(prefix, name, to, files[i].name, from);
  }
}
