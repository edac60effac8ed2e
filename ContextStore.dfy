/** `updateContext` (utils/updateContext.ts): record an agent's text and files in the
    shared context. */
module ContextStore {
  import opened Wrappers
  import opened Assoc
  import opened JsString
  import opened ContextTypes
  import opened TaggedDiff

  /** `currentContext.agents || {}`. */
  function Agents(ctx: Context): AList<string, AgentData> {
    ctx.agents.GetOr([])
  }

  /** `agents[role] || { text: '', files: {} }`, reduced to its files. */
  function PrevFiles(ctx: Context, role: string): StoredFiles {
    match Get(Agents(ctx), role)
    case Some(d) => d.files
    case None => Tagged([])
  }

  function RecordEntries(entries: AList<string, AgentFile>): (r: AList<string, PrevValue>)
    ensures Keys(r) == Keys(entries)
    ensures forall i :: 0 <= i < |r| ==> r[i].1 == Record(entries[i].1)
  {
    if entries == [] then []
    else [(entries[0].0, Record(entries[0].1))] + RecordEntries(entries[1..])
  }

  /** The properties of a string: one per character, named by its index. */
  function CharEntries(text: string): (r: AList<string, PrevValue>)
    ensures |r| == |text|
    ensures forall i :: 0 <= i < |r| ==> r[i] == (DecimalString(i), Text([text[i]]))
  {
    if text == [] then []
    else CharEntries(text[..|text| - 1]) + [(DecimalString(|text| - 1), Text([text[|text| - 1]]))]
  }

  /** The stored files as `fileDiff` reads them through `prevFiles[filename]`. */
  function PrevView(f: StoredFiles): AList<string, PrevValue> {
    match f
    case Tagged(entries) => RecordEntries(entries)
    case Flat(text) => CharEntries(text)
  }

  /** A file's first snapshot: its lines, each marked `+`. */
  function Snapshot(content: string): AgentFile {
    var lines := Split(content, '\n');
    AgentFile(seq(|lines|, _ => "+"), lines)
  }

  function FirstSnapshot(files: AList<string, string>): (r: AList<string, AgentFile>)
    ensures Keys(r) == Keys(files)
    ensures forall i :: 0 <= i < |r| ==> r[i].1 == Snapshot(files[i].1)
  {
    if files == [] then []
    else [(files[0].0, Snapshot(files[0].1))] + FirstSnapshot(files[1..])
  }

  /** The role already holds a non-empty first snapshot: records that `fileDiff` would
      hand to `diffLines`. */
  predicate HoldsSnapshot(ctx: Context, role: string) {
    PrevFiles(ctx, role).Tagged? && HasFiles(PrevFiles(ctx, role))
  }

  /** `diffLines` is handed the record stored under the first name of a non-empty
      snapshot. */
  lemma RecordsUnreadable(entries: AList<string, AgentFile>, files: AList<string, string>)
    requires entries != []
    ensures !Readable(FileNames(RecordEntries(entries), files), RecordEntries(entries))
  {
    var r := RecordEntries(entries);
    var k := entries[0].0;
    assert Keys(r)[0] == k;
    assert (Keys(r) + Keys(files))[0] == k;
    var names := FileNames(r, files);
    assert k in names;
    var i :| 0 <= i < |names| && names[i] == k;
    assert Get(r, k) == Some(Record(entries[0].1));
  }

  /** Every property of a string is itself a string, and a missing one reads as `''`. */
  lemma CharsReadable(text: string, names: seq<string>)
    ensures Readable(names, CharEntries(text))
  {
    var r := CharEntries(text);
    forall i | 0 <= i < |names| ensures PrevContent(r, names[i]).Text? {
      GetIn(r, names[i]);
      if Get(r, names[i]).Some? {
        var j :| 0 <= j < |r| && r[j] == (names[i], Get(r, names[i]).value);
      }
    }
  }

  /** Stored files with content are readable by `diffLines` exactly when they are text. */
  lemma ViewReadable(prev: StoredFiles, files: AList<string, string>)
    requires HasFiles(prev)
    ensures Readable(FileNames(PrevView(prev), files), PrevView(prev)) <==> prev.Flat?
  {
    match prev
    case Tagged(entries) => RecordsUnreadable(entries, files);
    case Flat(text) => CharsReadable(text, FileNames(PrevView(prev), files));
  }

  /** What is stored as the role's files: the first snapshot while the role has no files
      yet; afterwards the tagged diff text against the stored files, which a stored
      snapshot makes throw. */
  function MergedFiles(prev: StoredFiles, files: AList<string, string>, diff: LineDiff): (m: Result<StoredFiles>)
    ensures !HasFiles(prev) ==> m == Ok(Tagged(FirstSnapshot(files)))
    ensures HasFiles(prev) && prev.Tagged? ==> m == Err(SPLIT_ERROR)
    ensures HasFiles(prev) && prev.Flat? ==>
      m.Ok? && m.value.Flat? && FileDiffText(PrevView(prev), files, diff) == Ok(m.value.text)
  {
    if HasFiles(prev) then
      var view := PrevView(prev);
      RenderFilesErr(FileNames(view, files), view, files, diff);
      ViewReadable(prev, files);
      match FileDiffText(view, files, diff)
      case Err(e) => Err(e)
      case Ok(text) => Ok(Flat(text))
    else Ok(Tagged(FirstSnapshot(files)))
  }

  /** Fails exactly when the role holds a snapshot. Otherwise only the role's entry
      changes: every other property of the context and every other agent is kept, and a
      new role is added after the existing ones. */
  function UpdateContext(text: string, role: string, files: AList<string, string>, ctx: Context, diff: LineDiff)
    : (r: Result<Context>)
    ensures r.Err? <==> HoldsSnapshot(ctx, role)
    ensures r.Err? ==> r.message == SPLIT_ERROR
    ensures r.Ok? ==> r.value.name == ctx.name && r.value.summary == ctx.summary && r.value.version == ctx.version
    ensures r.Ok? ==> r.value.projectName == ctx.projectName && r.value.projectSummary == ctx.projectSummary
    ensures r.Ok? ==> r.value.agents.Some?
    ensures r.Ok? ==> Get(r.value.agents.value, role) == Some(AgentData(text, MergedFiles(PrevFiles(ctx, role), files, diff).value))
    ensures r.Ok? ==> forall j :: j != role ==> Get(r.value.agents.value, j) == Get(Agents(ctx), j)
    ensures r.Ok? ==>
      Keys(r.value.agents.value) == if role in Keys(Agents(ctx)) then Keys(Agents(ctx)) else Keys(Agents(ctx)) + [role]
  {
    match MergedFiles(PrevFiles(ctx, role), files, diff)
    case Err(e) => Err(e)
    case Ok(merged) =>
      var agents := Agents(ctx);
      GetPutOthers(agents, role, AgentData(text, merged));
      Ok(ctx.(agents := Some(Put(agents, role, AgentData(text, merged)))))
  }

  /** The first snapshot keeps the content losslessly: joining its lines gives the file
      back, with one `+` status per line. */
  lemma SnapshotRoundTrip(content: string)
    ensures Join(Snapshot(content).mergedLines, '\n') == content
    ensures |Snapshot(content).lineStatus| == |Snapshot(content).mergedLines| == Count(content, '\n') + 1
    ensures forall i :: 0 <= i < |Snapshot(content).lineStatus| ==> Snapshot(content).lineStatus[i] == "+"
  {
    JoinSplit(content, '\n');
  }

  /** A trailing newline leaves an empty last line in the snapshot. */
  lemma {:induction false} SnapshotTrailingNewline(content: string)
    requires content != [] && content[|content| - 1] == '\n'
    ensures Snapshot(content).mergedLines[|Snapshot(content).mergedLines| - 1] == ""
    decreases |content|
  {
    var lines := Split(content, '\n');
    if |content| == 1 {
      assert lines == [""] + Split("", '\n');
    } else {
      SnapshotTrailingNewline(content[1..]);
      var rest := Split(content[1..], '\n');
      assert rest[|rest| - 1] == "";
      if content[0] == '\n' {
        assert lines == [""] + rest;
      } else {
        assert lines == [[content[0]] + rest[0]] + rest[1..];
        assert |rest| >= 2;
      }
    }
  }

  /** Once a role has stored a non-empty first snapshot, its next update throws: the
      program's own updates never get past the first snapshot of a role. */
  lemma SecondUpdateThrows(text1: string, text2: string, role: string, files1: AList<string, string>,
                           files2: AList<string, string>, ctx: Context, diff: LineDiff)
    requires !HasFiles(PrevFiles(ctx, role))
    requires files1 != []
    ensures UpdateContext(text1, role, files1, ctx, diff).Ok?
    ensures UpdateContext(text2, role, files2, UpdateContext(text1, role, files1, ctx, diff).value, diff) == Err(SPLIT_ERROR)
  {
    var c1 := UpdateContext(text1, role, files1, ctx, diff).value;
    assert PrevFiles(c1, role) == Tagged(FirstSnapshot(files1));
  }

  /** When the role holds diff text whose diff against the new files comes out empty,
      that empty text counts as no files, so the update after it takes the
      first-snapshot branch again. */
  lemma EmptyDiffResetsSnapshot(text1: string, text2: string, role: string, files1: AList<string, string>,
                                files2: AList<string, string>, ctx: Context, diff: LineDiff)
    requires PrevFiles(ctx, role).Flat? && HasFiles(PrevFiles(ctx, role))
    requires FilesEmpty(FileNames(PrevView(PrevFiles(ctx, role)), files1), PrevView(PrevFiles(ctx, role)), files1, diff)
    ensures UpdateContext(text1, role, files1, ctx, diff).Ok?
    ensures var c1 := UpdateContext(text1, role, files1, ctx, diff).value;
            UpdateContext(text2, role, files2, c1, diff).Ok? &&
            Get(UpdateContext(text2, role, files2, c1, diff).value.agents.value, role)
              == Some(AgentData(text2, Tagged(FirstSnapshot(files2))))
  {
    DiffEmptyIff(PrevView(PrevFiles(ctx, role)), files1, diff);
  }
}
