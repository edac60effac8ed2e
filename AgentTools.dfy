/** The in-memory file tools of the developer and tester agents (developer.ts and
    tester.ts define the same two tools over the same state). */
module AgentTools {
  import opened Wrappers
  import opened Assoc

  /** One entry of the `readFiles` answer; `content` is `null` as `None`. */
  datatype FileRead = FileRead(path: string, content: Option<string>)

  /** `state.files[path] || null`: a missing path and an empty file both read as
      `null`. */
  function ReadOne(files: AList<string, string>, path: string): (r: FileRead)
    ensures r.path == path
    ensures r.content.Some? <==> path in Keys(files) && Get(files, path).value != ""
    ensures r.content.Some? ==> r.content == Get(files, path)
  {
    match Get(files, path)
    case Some(c) => if c == "" then FileRead(path, None) else FileRead(path, Some(c))
    case None => FileRead(path, None)
  }

  /** `files.map(...)`: one answer per requested path, in request order. */
  function ReadAll(files: AList<string, string>, paths: seq<string>): (r: seq<FileRead>)
    ensures |r| == |paths|
    ensures forall i :: 0 <= i < |paths| ==> r[i] == ReadOne(files, paths[i])
  {
    if paths == [] then [] else [ReadOne(files, paths[0])] + ReadAll(files, paths[1..])
  }

  /** The `state` object an agent call creates; `files` is a JavaScript object, so its
      keys are distinct. */
  class CodeGenState {
    var files: AList<string, string>

    ghost predicate Valid()
      reads this
    {
      Unique(files)
    }

    /** Each agent call starts with no files. */
    constructor()
      ensures files == [] && Valid()
    {
      files := [];
    }

    /** `createOrUpdateFiles`: the batch's paths are assigned in order, and the whole
        map is returned. */
    method CreateOrUpdateFiles(batch: AList<string, string>) returns (result: AList<string, string>)
      requires Valid()
      modifies this
      ensures files == PutAll(old(files), batch) && result == files
      ensures Valid()
    {
      var i := 0;
      while i < |batch|
        invariant 0 <= i <= |batch|
        invariant files == PutAll(old(files), batch[..i]) && Unique(files)
      {
        assert batch[..i + 1][..i] == batch[..i];
        PutUnique(files, batch[i].0, batch[i].1);
        files := Put(files, batch[i].0, batch[i].1);
        i := i + 1;
      }
      assert batch[..i] == batch;
      result := files;
    }

    /** `readFiles`: one answer per requested path, in request order, holding the
        path's current content, or `null` when the path is missing or empty. */
    function ReadFiles(paths: seq<string>): (r: seq<FileRead>)
      reads this
      ensures |r| == |paths|
      ensures forall i :: 0 <= i < |paths| ==> r[i].path == paths[i]
      ensures forall i :: 0 <= i < |paths| ==>
        (r[i].content.Some? <==> paths[i] in Keys(files) && Get(files, paths[i]).value != "")
      ensures forall i :: 0 <= i < |paths| ==> r[i].content.Some? ==> r[i].content == Get(files, paths[i])
    {
      ReadAll(files, paths)
    }
  }

  /** After a batch, a path reads back the content of its last occurrence in the batch
      (or `null` when that is empty); a path the batch does not name reads as before;
      and the keys are the earlier keys followed by the batch's new ones. */
  lemma ReadAfterWrite(files: AList<string, string>, batch: AList<string, string>, path: string)
    requires Unique(files)
    ensures path in Keys(batch) ==>
      ReadOne(PutAll(files, batch), path).content == if GetLast(batch, path) == Some("") then None else GetLast(batch, path)
    ensures path !in Keys(batch) ==> ReadOne(PutAll(files, batch), path) == ReadOne(files, path)
    ensures Keys(PutAll(files, batch)) == Dedup(Keys(files) + Keys(batch))
  {
    GetPutAll(files, batch, path);
    KeysPutAll(files, batch);
  }
}
