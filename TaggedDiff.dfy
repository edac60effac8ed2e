/** `fileDiff` (utils/fileDiff.ts): a merged, line-tagged diff of two file collections.
    The line diff itself comes from the `diff` library and is a parameter here. */
module TaggedDiff {
  import opened Wrappers
  import opened Assoc
  import opened JsString
  import opened ContextTypes

  /** One change object of `diffLines`. */
  datatype Part = Part(added: bool, removed: bool, value: string)

  /** What `prevFiles[filename] || ''` yields: a string, or the `AgentFile` record that
      the context actually stores under the name (records are truthy). */
  datatype PrevValue = Text(s: string) | Record(file: AgentFile)

  /** The library's `diffLines(old, new)` on two strings. */
  type LineDiff = (string, string) -> seq<Part>

  /** `diffLines` splits its arguments into lines with `split`; a record has no `split`,
      so handing it a record throws this TypeError. */
  const SPLIT_ERROR := "TypeError: value.split is not a function"

  function Tag(p: Part): (tag: string)
    ensures tag in ["[ADDED]", "[REMOVED]", "[CONST]"]
    ensures p.added ==> tag == "[ADDED]"
    ensures !p.added && p.removed ==> tag == "[REMOVED]"
    ensures !p.added && !p.removed ==> tag == "[CONST]"
  {
    if p.added then "[ADDED]" else if p.removed then "[REMOVED]" else "[CONST]"
  }

  /** The lines of a part's value; a final empty piece (a trailing newline) is dropped. */
  function PartLines(value: string): (lines: seq<string>)
    ensures forall i :: 0 <= i < |lines| ==> '\n' !in lines[i]
  {
    var pieces := Split(value, '\n');
    if pieces[|pieces| - 1] == "" then pieces[..|pieces| - 1] else pieces
  }

  /** The output of one part: `tag line\n` for each of its lines. */
  function Rendered(tag: string, lines: seq<string>): string {
    if lines == [] then ""
    else Rendered(tag, lines[..|lines| - 1]) + tag + " " + lines[|lines| - 1] + "\n"
  }

  function RenderParts(parts: seq<Part>): string {
    if parts == [] then ""
    else
      var p := parts[|parts| - 1];
      RenderParts(parts[..|parts| - 1]) + Rendered(Tag(p), PartLines(p.value))
  }

  function PrevContent(prev: AList<string, PrevValue>, name: string): PrevValue {
    Get(prev, name).GetOr(Text(""))
  }

  function NewContent(next: AList<string, string>, name: string): string {
    Get(next, name).GetOr("")
  }

  /** The previous names followed by the new ones, each once. */
  function FileNames(prev: AList<string, PrevValue>, next: AList<string, string>): seq<string> {
    Dedup(Keys(prev) + Keys(next))
  }

  /** The output of the files in `names`, in order; the first file whose previous value
      is a record throws, and the output so far is lost. */
  function RenderFiles(names: seq<string>, prev: AList<string, PrevValue>, next: AList<string, string>,
                       diff: LineDiff): Result<string>
  {
    if names == [] then Ok("")
    else
      var name := names[|names| - 1];
      match RenderFiles(names[..|names| - 1], prev, next, diff)
      case Err(e) => Err(e)
      case Ok(out) =>
        match PrevContent(prev, name)
        case Record(_) => Err(SPLIT_ERROR)
        case Text(before) => Ok(out + RenderParts(diff(before, NewContent(next, name))))
  }

  function Untrimmed(prev: AList<string, PrevValue>, next: AList<string, string>, diff: LineDiff): Result<string> {
    RenderFiles(FileNames(prev, next), prev, next, diff)
  }

  function FileDiffText(prev: AList<string, PrevValue>, next: AList<string, string>, diff: LineDiff): Result<string> {
    match Untrimmed(prev, next, diff)
    case Err(e) => Err(e)
    case Ok(u) => Ok(TrimEnd(u))
  }

  /** Every name's previous value is a string, as `diffLines` needs. */
  predicate Readable(names: seq<string>, prev: AList<string, PrevValue>) {
    forall i :: 0 <= i < |names| ==> PrevContent(prev, names[i]).Text?
  }

  method FileDiff(prevFiles: AList<string, PrevValue>, newFiles: AList<string, string>, diffLines: LineDiff)
    returns (result: Result<string>)
    ensures result == FileDiffText(prevFiles, newFiles, diffLines)
    ensures result.Err? <==> !Readable(FileNames(prevFiles, newFiles), prevFiles)
    ensures result.Err? ==> result.message == SPLIT_ERROR
    ensures result.Ok? ==> result.value == "" || !IsWhitespace(result.value[|result.value| - 1])
  {
    var output := "";
    var allFileNames := Dedup(Keys(prevFiles) + Keys(newFiles));
    RenderFilesErr(allFileNames, prevFiles, newFiles, diffLines);
    for f := 0 to |allFileNames|
      invariant RenderFiles(allFileNames[..f], prevFiles, newFiles, diffLines) == Ok(output)
      invariant Readable(allFileNames[..f], prevFiles)
    {
      var filename := allFileNames[f];
      var prevContent := Get(prevFiles, filename).GetOr(Text(""));
      var newContent := Get(newFiles, filename).GetOr("");
      if prevContent.Record? {
        return Err(SPLIT_ERROR);
      }
      var diff := diffLines(prevContent.s, newContent);
      ghost var beforeFile := output;
      for p := 0 to |diff|
        invariant output == beforeFile + RenderParts(diff[..p])
      {
        output := AppendPart(output, diff[p]);
        RenderPartsSnoc(diff, p);
        Associative(beforeFile, RenderParts(diff[..p]), Rendered(Tag(diff[p]), PartLines(diff[p].value)));
      }
      assert diff[..|diff|] == diff;
      RenderFilesSnoc(allFileNames, f, prevFiles, newFiles, diffLines, beforeFile);
      ReadableSnoc(allFileNames, f, prevFiles);
    }
    assert allFileNames[..|allFileNames|] == allFileNames;
    result := Ok(TrimEnd(output));
  }

  lemma ReadableSnoc(names: seq<string>, f: nat, prev: AList<string, PrevValue>)
    requires f < |names| && Readable(names[..f], prev) && PrevContent(prev, names[f]).Text?
    ensures Readable(names[..f + 1], prev)
  {
    var g := names[..f + 1];
    forall i | 0 <= i < f + 1 ensures PrevContent(prev, g[i]).Text? {
      if i < f { assert g[i] == names[..f][i]; }
    }
  }

  /** `fileDiff` throws exactly when some file's previous value is a record, and then
      with the TypeError of `split`. */
  lemma {:induction false} RenderFilesErr(names: seq<string>, prev: AList<string, PrevValue>, next: AList<string, string>,
                                          diff: LineDiff)
    ensures RenderFiles(names, prev, next, diff).Err? <==> !Readable(names, prev)
    ensures RenderFiles(names, prev, next, diff).Err? ==> RenderFiles(names, prev, next, diff).message == SPLIT_ERROR
    decreases |names|
  {
    if names != [] {
      var front := names[..|names| - 1];
      var name := names[|names| - 1];
      RenderFilesErr(front, prev, next, diff);
      assert forall i :: 0 <= i < |front| ==> front[i] == names[i];
      if !Readable(front, prev) {
        var i :| 0 <= i < |front| && !PrevContent(prev, front[i]).Text?;
        assert !PrevContent(prev, names[i]).Text?;
      }
    }
  }

  lemma RenderedSnoc(tag: string, lines: seq<string>, l: nat)
    requires l < |lines|
    ensures Rendered(tag, lines[..l + 1]) == Rendered(tag, lines[..l]) + (tag + " " + lines[l] + "\n")
  {
    assert lines[..l + 1][..l] == lines[..l];
    var r := Rendered(tag, lines[..l]);
    Associative(r, tag, " ");
    Associative(r, tag + " ", lines[l]);
    Associative(r, tag + " " + lines[l], "\n");
  }

  lemma RenderPartsSnoc(parts: seq<Part>, p: nat)
    requires p < |parts|
    ensures RenderParts(parts[..p + 1]) == RenderParts(parts[..p]) + Rendered(Tag(parts[p]), PartLines(parts[p].value))
  {
    assert parts[..p + 1][..p] == parts[..p];
  }

  lemma RenderFilesSnoc(names: seq<string>, f: nat, prev: AList<string, PrevValue>, next: AList<string, string>,
                        diff: LineDiff, out: string)
    requires f < |names| && RenderFiles(names[..f], prev, next, diff) == Ok(out)
    requires PrevContent(prev, names[f]).Text?
    ensures RenderFiles(names[..f + 1], prev, next, diff)
         == Ok(out + RenderParts(diff(PrevContent(prev, names[f]).s, NewContent(next, names[f]))))
  {
    assert names[..f + 1][..f] == names[..f];
  }

  /** The body of the loop over the parts: one `tag line` row per line of the part. */
  method AppendPart(output0: string, part: Part) returns (output: string)
    ensures output == output0 + Rendered(Tag(part), PartLines(part.value))
  {
    output := output0;
    var tag := if part.added then "[ADDED]" else if part.removed then "[REMOVED]" else "[CONST]";
    var lines := Split(part.value, '\n');
    if lines[|lines| - 1] == "" {
      lines := lines[..|lines| - 1];
    }
    for l := 0 to |lines|
      invariant output == output0 + Rendered(tag, lines[..l])
    {
      RenderedSnoc(tag, lines, l);
      Associative(output0, Rendered(tag, lines[..l]), tag + " " + lines[l] + "\n");
      output := output + (tag + " " + lines[l] + "\n");
    }
    assert lines[..|lines|] == lines;
  }

  /** The files are visited in the order of the previous collection, then the names only
      the new collection has, each name once. */
  lemma FileNamesOrder(prev: AList<string, PrevValue>, next: AList<string, string>)
    requires Unique(prev)
    ensures forall k :: k in FileNames(prev, next) <==> k in Keys(prev) || k in Keys(next)
    ensures forall i, j :: 0 <= i < j < |FileNames(prev, next)| ==> FileNames(prev, next)[i] != FileNames(prev, next)[j]
    ensures |Keys(prev)| <= |FileNames(prev, next)| && FileNames(prev, next)[..|prev|] == Keys(prev)
  {
    var all := Keys(prev) + Keys(next);
    forall k | k in all ensures k in FileNames(prev, next) {
      var i :| 0 <= i < |all| && all[i] == k;
    }
    DedupPrefix(Keys(prev), Keys(next));
    UniqueKeysDistinct(prev);
    DedupUnique(Keys(prev));
  }

  /** Emitting `tag line\n` per line gives back the part's value with a newline added
      where it did not end in one. */
  lemma PartLinesRoundTrip(value: string)
    ensures Terminated(PartLines(value)) == if value == "" || value[|value| - 1] == '\n' then value else value + "\n"
  {
    var pieces := Split(value, '\n');
    JoinSplit(value, '\n');
    var last := pieces[|pieces| - 1];
    var front := pieces[..|pieces| - 1];
    assert pieces == front + [last];
    if front == [] {
      assert pieces == [last];
      if last != "" {
        assert value == last;
        assert Terminated([last]) == Terminated([]) + last + "\n";
      }
    } else {
      JoinSnoc(front, last, '\n');
      TerminatedJoin(front, '\n');
      if last == "" {
        assert value == Join(front, '\n') + "\n";
      } else {
        TerminatedJoin(pieces, '\n');
        assert value[|value| - 1] == last[|last| - 1];
        assert last[|last| - 1] in last;
      }
    }
  }

  /** The concatenation of `line + "\n"` over the lines. */
  function Terminated(lines: seq<string>): string {
    if lines == [] then "" else Terminated(lines[..|lines| - 1]) + lines[|lines| - 1] + "\n"
  }

  lemma {:induction false} JoinSnoc(front: seq<string>, last: string, c: char)
    requires front != []
    ensures Join(front + [last], c) == Join(front, c) + [c] + last
    decreases |front|
  {
    if |front| == 1 {
      assert front + [last] == [front[0], last];
    } else {
      assert (front + [last])[1..] == front[1..] + [last];
      JoinSnoc(front[1..], last, c);
    }
  }

  lemma {:induction false} TerminatedJoin(lines: seq<string>, c: char)
    requires lines != [] && c == '\n'
    ensures Terminated(lines) == Join(lines, c) + "\n"
    decreases |lines|
  {
    var front := lines[..|lines| - 1];
    if front == [] {
      assert lines == [lines[0]];
    } else {
      TerminatedJoin(front, c);
      assert lines == front + [lines[|lines| - 1]];
      JoinSnoc(front, lines[|lines| - 1], c);
    }
  }

  /** A part produces no output exactly when its value is empty. */
  lemma PartLinesEmpty(value: string)
    ensures PartLines(value) == [] <==> value == ""
  {
    JoinSplit(value, '\n');
    var pieces := Split(value, '\n');
    if |pieces| == 1 && pieces[0] == "" {
      assert value == Join(pieces, '\n');
    }
  }

  /** Output text only consists of tagged lines, so anything non-empty holds a `[`. */
  predicate HasBracket(s: string) {
    '[' in s
  }

  lemma RenderedBracket(tag: string, lines: seq<string>)
    requires tag in ["[ADDED]", "[REMOVED]", "[CONST]"]
    ensures Rendered(tag, lines) == "" <==> lines == []
    ensures lines != [] ==> HasBracket(Rendered(tag, lines))
  {
    if lines != [] {
      var front := Rendered(tag, lines[..|lines| - 1]);
      var s := Rendered(tag, lines);
      assert s == front + tag + " " + lines[|lines| - 1] + "\n";
      assert s[|front|] == tag[0] == '[';
      assert s[|front|] in s;
    }
  }

  predicate ValuesEmpty(parts: seq<Part>) {
    forall i :: 0 <= i < |parts| ==> parts[i].value == ""
  }

  lemma ValuesEmptySnoc(parts: seq<Part>)
    requires parts != []
    ensures ValuesEmpty(parts) <==> ValuesEmpty(parts[..|parts| - 1]) && parts[|parts| - 1].value == ""
  {
    var front := parts[..|parts| - 1];
    assert forall i :: 0 <= i < |front| ==> front[i] == parts[i];
  }

  lemma {:induction false} RenderPartsEmpty(parts: seq<Part>)
    ensures RenderParts(parts) == "" <==> ValuesEmpty(parts)
    ensures RenderParts(parts) != "" ==> HasBracket(RenderParts(parts))
    decreases |parts|
  {
    if parts != [] {
      var front := parts[..|parts| - 1];
      var p := parts[|parts| - 1];
      RenderPartsEmpty(front);
      RenderedBracket(Tag(p), PartLines(p.value));
      PartLinesEmpty(p.value);
      ValuesEmptySnoc(parts);
      var a := RenderParts(front);
      var b := Rendered(Tag(p), PartLines(p.value));
      assert RenderParts(parts) == a + b;
      assert a + b == "" <==> a == "" && b == "" by {
        assert |a + b| == |a| + |b|;
      }
    }
  }

  /** The previous value of file `name` is a string, and every part of its diff is empty. */
  predicate AllPartsEmpty(name: string, prev: AList<string, PrevValue>, next: AList<string, string>, diff: LineDiff) {
    match PrevContent(prev, name)
    case Record(_) => false
    case Text(before) => ValuesEmpty(diff(before, NewContent(next, name)))
  }

  predicate FilesEmpty(names: seq<string>, prev: AList<string, PrevValue>, next: AList<string, string>, diff: LineDiff) {
    forall i :: 0 <= i < |names| ==> AllPartsEmpty(names[i], prev, next, diff)
  }

  lemma FilesEmptySnoc(names: seq<string>, prev: AList<string, PrevValue>, next: AList<string, string>, diff: LineDiff)
    requires names != []
    ensures FilesEmpty(names, prev, next, diff) <==>
      FilesEmpty(names[..|names| - 1], prev, next, diff) && AllPartsEmpty(names[|names| - 1], prev, next, diff)
  {
    var front := names[..|names| - 1];
    assert forall i :: 0 <= i < |front| ==> front[i] == names[i];
  }

  lemma {:induction false} RenderFilesEmpty(names: seq<string>, prev: AList<string, PrevValue>, next: AList<string, string>, diff: LineDiff)
    ensures RenderFiles(names, prev, next, diff) == Ok("") <==> FilesEmpty(names, prev, next, diff)
    ensures RenderFiles(names, prev, next, diff).Ok? && RenderFiles(names, prev, next, diff).value != "" ==>
      HasBracket(RenderFiles(names, prev, next, diff).value)
    decreases |names|
  {
    if names != [] {
      var front := names[..|names| - 1];
      var name := names[|names| - 1];
      RenderFilesEmpty(front, prev, next, diff);
      FilesEmptySnoc(names, prev, next, diff);
      var r := RenderFiles(front, prev, next, diff);
      if r.Ok? && PrevContent(prev, name).Text? {
        var parts := diff(PrevContent(prev, name).s, NewContent(next, name));
        RenderPartsEmpty(parts);
        var a := r.value;
        var b := RenderParts(parts);
        assert RenderFiles(names, prev, next, diff) == Ok(a + b);
        assert a + b == "" <==> a == "" && b == "" by {
          assert |a + b| == |a| + |b|;
        }
      }
    }
  }

  /** The diff text is empty exactly when every part of every file's line diff is empty:
      a tagged line always survives `trimEnd`. */
  lemma DiffEmptyIff(prev: AList<string, PrevValue>, next: AList<string, string>, diff: LineDiff)
    ensures FileDiffText(prev, next, diff) == Ok("") <==> FilesEmpty(FileNames(prev, next), prev, next, diff)
  {
    RenderFilesEmpty(FileNames(prev, next), prev, next, diff);
    if Untrimmed(prev, next, diff).Ok? {
      var u := Untrimmed(prev, next, diff).value;
      TrimEndEmpty(u);
      if u != "" {
        var i :| 0 <= i < |u| && u[i] == '[';
        assert !IsWhitespace(u[i]);
      }
    }
  }
}
